/**
 The log sender across connections: the pipeline of LogPipeline.dfy and the reconnecting client
 of TcpClient.dfy inside the rounds of the event loop (src/event_loop.cpp: dispatch the reported
 events, then run the functors that were queued by then).  The sender calls connect once and its
 connection callback makes no calls, so the client is left to itself.  `bound` is the longest
 time that the dispatch of one round may take.
 */
module LogReconnects {
  import opened Bytes
  import opened LogPipeline
  import opened LogProgress
  import opened LogDelivery
  import Ev = EventLoop
  import Framing
  import Connection
  import Tcp = TcpClient
  import Log = LogProtocol

  type GoodClient = c: Tcp.Client | Tcp.Good(c) ghost witness Tcp.IDLE

  datatype Rounds = Rounds(
    p: State,
    client: GoodClient,
    running: bool,        // in do_pending_functors, otherwise dispatching events
    left: nat,            // functors of the swapped batch not yet run
    began: Tcp.Time)      // when this dispatch began

  datatype Step =
    | Inner(e: Event)
    | Client(event: Tcp.Event)  // the retry timer goes off, or a handshake ends
    | Pass(dt: nat)         // time goes by
    | Swap                  // dispatch is over: everything queued becomes the batch
    | NextRound             // the batch is done and epoll_wait has returned

  /** The first attempt has succeeded and its connection has just been stored. */
  ghost function Start(cap: nat, mark: nat, maxBatch: nat): Rounds {
    Rounds(First(cap, mark, maxBatch), Tcp.Next(Tcp.IDLE, Tcp.UserConnect(Tcp.AtOnce(true), [])), false, 0, 0)
  }

  /** Timers, readiness and hang-ups are dispatched events; functors run in their own half. */
  predicate InPlace(s: Rounds, e: Event) {
    match e
    case TickTimer => !s.running
    case Writable(_) => !s.running
    case HangUp => !s.running
    case RunFunctor => s.running && s.left > 0
    case _ => true
  }

  predicate Enabled(s: Rounds, step: Step, bound: nat) {
    match step
    case Inner(e) => LogPipeline.Enabled(s.p, e) && InPlace(s, e)
    case Client(e) =>
      && !s.running && AtRest(s.p) && (e.TimerFires? || e.HandshakeDone?)
      && Tcp.Enabled(s.client, e) && Tcp.Undisturbed(s.client, e)
    case Pass(dt) => s.running || s.client.now + dt <= s.began + bound
    case Swap => !s.running && AtRest(s.p)
    case NextRound => s.running && s.left == 0 && AtRest(s.p)
  }

  /** The connection is closed, and its close callback tells the client. */
  ghost function Loses(c: GoodClient): GoodClient {
    if c.phase == Tcp.Connected then Tcp.Next(c, Tcp.ConnectionDies([])) else c
  }

  ghost function Next(s: Rounds, step: Step, bound: nat): Rounds
    requires Enabled(s, step, bound)
  {
    match step
    case Inner(e) =>
      var p := LogPipeline.Next(s.p, e);
      s.(p := p, left := if e.RunFunctor? then s.left - 1 else s.left,
         client := if Open(s.p) && !Open(p) then Loses(s.client) else s.client)
    case Client(e) =>
      var c := Tcp.Next(s.client, e);
      s.(client := c, p := if c.phase == Tcp.Connected && !Open(s.p) then Established(s.p) else s.p)
    case Pass(dt) => s.(client := Tcp.Next(s.client, Tcp.Advance(dt)))
    case Swap => s.(running := true, left := |s.p.functors|)
    case NextRound => s.(running := false, began := s.client.now)
  }

  ghost predicate CanRun(s: Rounds, steps: seq<Step>, bound: nat)
    decreases |steps|
  {
    steps == [] || (Enabled(s, steps[0], bound) && CanRun(Next(s, steps[0], bound), steps[1..], bound))
  }

  ghost function Exec(s: Rounds, steps: seq<Step>, bound: nat): Rounds
    requires CanRun(s, steps, bound)
    decreases |steps|
  {
    if steps == [] then s else Exec(Next(s, steps[0], bound), steps[1..], bound)
  }

  // ----- no connection inherits a pause -----

  predicate OnlyWakes(functors: seq<Functor>) {
    forall i :: 0 <= i < |functors| ==> functors[i] == WakeTick
  }

  /** While there is no connection, what is queued ends in "not paused", or all of it that does
      not is in the batch being run, or the connection was lost in this very dispatch and the
      client waits. */
  ghost predicate Harmless(s: Rounds)
    requires s.left <= |s.p.functors|
  {
    || !PausedAfter(false, s.p.functors)
    || (s.p.mark > 0 && s.running && OnlyWakes(s.p.functors[s.left..]))
    || (s.p.mark > 0 && !s.running && s.client.phase == Tcp.Retrying && s.began + Tcp.INITIAL_BACKOFF <= s.client.due)
  }

  /** The pipeline has a connection exactly when the client is connected. */
  ghost predicate Together(s: Rounds) {
    Tcp.Sole(s.client) && (Open(s.p) <==> s.client.phase == Tcp.Connected)
  }

  ghost predicate Safe(s: Rounds, bound: nat) {
    && Resumes(s.p) && Together(s)
    && s.left <= |s.p.functors| && (!s.running ==> s.left == 0 && s.client.now <= s.began + bound)
    && s.began <= s.client.now
    && (!Open(s.p) ==> Harmless(s))
  }

  /** Starting unpaused can only end less paused. */
  lemma {:induction false} PausedMonotone(paused: bool, functors: seq<Functor>)
    ensures PausedAfter(false, functors) ==> PausedAfter(paused, functors)
    decreases |functors|
  {
    if functors == [] || functors[0] != WakeTick {
    } else {
      PausedMonotone(paused, functors[1..]);
    }
  }

  lemma {:induction false} WakesDoNotPause(functors: seq<Functor>)
    requires OnlyWakes(functors)
    ensures !PausedAfter(false, functors)
  {
    if functors == [] {
    } else {
      WakesDoNotPause(functors[1..]);
    }
  }

  lemma FirstRun(functors: seq<Functor>)
    requires functors != [] && !PausedAfter(false, functors)
    ensures !PausedAfter(false, functors[1..])
  {
    PausedMonotone(true, functors[1..]);
  }

  /** A write that breaks the connection had no backlog before it and queues nothing. */
  lemma BreakingSend(s: State, answers: seq<Connection.Answer>)
    requires LogPipeline.Enabled(s, SendNext(answers)) && !Open(LogPipeline.Next(s, SendNext(answers)))
    ensures s.c.out == [] && LogPipeline.Next(s, SendNext(answers)).functors == s.functors
  {
    hide Connection.WriteLoop, Framing.Frame;
  }

  lemma BreakingFlush(s: State, answers: seq<Connection.Answer>)
    requires LogPipeline.Enabled(s, Writable(answers)) && !Open(LogPipeline.Next(s, Writable(answers)))
    ensures LogPipeline.Next(s, Writable(answers)).functors == s.functors
  {
    hide Connection.WriteLoop;
  }

  /** What the step that loses the connection leaves queued. */
  lemma LossQueues(s: State, e: Event)
    requires LogPipeline.Enabled(s, e) && Open(s) && !Open(LogPipeline.Next(s, e))
    ensures LogPipeline.Next(s, e).functors == s.functors && LogPipeline.Next(s, e).mark == s.mark
    ensures (e.SendNext? && s.c.out == []) || e.Writable? || e.HangUp?
  {
    match e
    case SendNext(answers) => BreakingSend(s, answers);
    case Writable(answers) => BreakingFlush(s, answers);
    case HangUp =>
    case _ => assert false;
  }

  /** The step that loses the connection. */
  lemma LosingKeeps(s: Rounds, e: Event, bound: nat)
    requires Safe(s, bound) && Enabled(s, Inner(e), bound) && Open(s.p) && !Open(LogPipeline.Next(s.p, e))
    ensures Safe(Next(s, Inner(e), bound), bound)
  {
    ResumesStep(s.p, e);
    LossQueues(s.p, e);
    PausedMonotone(s.p.paused, s.p.functors);
    Tcp.SoleStep(s.client, Tcp.ConnectionDies([]));
    Tcp.LossWaits(s.client);
    hide LogPipeline.Next, LogPipeline.Enabled, Tcp.Next, Tcp.Sole, Tcp.Good, PausedAfter;
  }

  /** Every other step of the pipeline: functors are queued behind, or the oldest is run. */
  lemma QueueMoves(s: State, e: Event)
    requires LogPipeline.Enabled(s, e) && !Open(s)
    ensures var t := LogPipeline.Next(s, e);
            && t.mark == s.mark && !Open(t)
            && t.functors == (if e.RunFunctor? then s.functors[1..] else if e.PostWake? then s.functors + [WakeTick]
                              else s.functors)
  {
  }

  lemma ClosedKeeps(s: Rounds, e: Event, bound: nat)
    requires Safe(s, bound) && Enabled(s, Inner(e), bound) && !Open(s.p)
    ensures Safe(Next(s, Inner(e), bound), bound)
  {
    ResumesStep(s.p, e);
    QueueMoves(s.p, e);
    hide LogPipeline.Next, Resumes;
    var fs := s.p.functors;
    if e.RunFunctor? {
      if !PausedAfter(false, fs) {
        FirstRun(fs);
      } else {
        assert fs[1..][s.left - 1..] == fs[s.left..];
      }
    } else if e.PostWake? {
      PausedAfterSnoc(false, fs, WakeTick);
      assert (fs + [WakeTick])[s.left..] == fs[s.left..] + [WakeTick];
    }
  }

  lemma OpenKeeps(s: Rounds, e: Event, bound: nat)
    requires Safe(s, bound) && Enabled(s, Inner(e), bound) && Open(s.p) && Open(LogPipeline.Next(s.p, e))
    ensures Safe(Next(s, Inner(e), bound), bound)
  {
    ResumesStep(s.p, e);
    hide Connection.Sent, Connection.Flushed, Connection.Crosses, Connection.Completes, PausedAfter;
  }

  lemma SafeStep(s: Rounds, step: Step, bound: nat)
    requires Safe(s, bound) && Enabled(s, step, bound)
    requires s.p.mark == 0 || bound < Tcp.INITIAL_BACKOFF
    ensures Safe(Next(s, step, bound), bound)
  {
    match step
    case Inner(e) =>
      if !Open(s.p) {
        ClosedKeeps(s, e, bound);
      } else if Open(LogPipeline.Next(s.p, e)) {
        OpenKeeps(s, e, bound);
      } else {
        LosingKeeps(s, e, bound);
      }
    case Client(e) => ClientKeeps(s, e, bound);
    case Pass(dt) => Tcp.SoleStep(s.client, Tcp.Advance(dt));
    case NextRound =>
      assert s.p.functors[0..] == s.p.functors;
      if OnlyWakes(s.p.functors) {
        WakesDoNotPause(s.p.functors);
      }
    case Swap =>
  }

  /** The client comes back only in a later dispatch than the one that lost its connection. */
  lemma ClientKeeps(s: Rounds, e: Tcp.Event, bound: nat)
    requires Safe(s, bound) && Enabled(s, Client(e), bound)
    requires s.p.mark == 0 || bound < Tcp.INITIAL_BACKOFF
    ensures Safe(Next(s, Client(e), bound), bound)
  {
    Tcp.SoleStep(s.client, e);
    assert !Open(s.p);
    assert !PausedAfter(false, s.p.functors);
    hide PausedAfter, Tcp.AfterTimer, Tcp.HandshakeFinished;
  }

  lemma {:induction false} SafeRun(s: Rounds, steps: seq<Step>, bound: nat)
    requires Safe(s, bound) && CanRun(s, steps, bound)
    requires s.p.mark == 0 || bound < Tcp.INITIAL_BACKOFF
    ensures Safe(Exec(s, steps, bound), bound)
    decreases |steps|
  {
    if steps == [] {
    } else {
      SafeStep(s, steps[0], bound);
      SameMark(s, steps[0], bound);
      hide Safe, Enabled, Next;
      SafeRun(Next(s, steps[0], bound), steps[1..], bound);
    }
  }

  lemma SameMark(s: Rounds, step: Step, bound: nat)
    requires Enabled(s, step, bound)
    ensures Next(s, step, bound).p.mark == s.p.mark
  {
    hide Connection.Sent, Connection.Flushed;
  }

  // ----- a run that wedges -----

  lemma OneMoreStep(s: Rounds, step: Step, steps: seq<Step>, bound: nat)
    requires Enabled(s, step, bound) && CanRun(Next(s, step, bound), steps, bound)
    ensures CanRun(s, [step] + steps, bound)
    ensures Exec(s, [step] + steps, bound) == Exec(Next(s, step, bound), steps, bound)
  {
    hide Enabled, Next;
    assert ([step] + steps)[1..] == steps;
  }

  lemma NoStep(s: Rounds, bound: nat)
    ensures CanRun(s, [], bound) && Exec(s, [], bound) == s
  {
  }

  /** The connection hangs up, and the client waits for its first delay. */
  lemma Lost(s: Rounds, bound: nat)
    requires Open(s.p) && AtRest(s.p) && !s.running && Together(s)
    ensures Enabled(s, Inner(HangUp), bound)
    ensures var t := Next(s, Inner(HangUp), bound);
            && !Open(t.p) && AtRest(t.p) && t.p.functors == s.p.functors && !t.running && t.began == s.began
            && t.client.phase == Tcp.Retrying && Tcp.Sole(t.client)
            && t.client.now == s.client.now && t.client.due == s.client.now + Tcp.INITIAL_BACKOFF
  {
    Tcp.SoleStep(s.client, Tcp.ConnectionDies([]));
    Tcp.LossWaits(s.client);
    hide Tcp.Next, Tcp.Sole, Tcp.Good;
  }

  /** A connection is lost, and the client has it back within the same dispatch; what was queued
      is still queued. */
  lemma ComesBack(s: Rounds, bound: nat) returns (steps: seq<Step>)
    requires Open(s.p) && AtRest(s.p) && !s.running && s.began == s.client.now
    requires Together(s) && bound >= Tcp.INITIAL_BACKOFF
    ensures CanRun(s, steps, bound)
    ensures var t := Exec(s, steps, bound);
            Open(t.p) && AtRest(t.p) && t.p.c.out == [] && t.p.functors == s.p.functors && !t.running
  {
    var delay, retry := Pass(Tcp.INITIAL_BACKOFF), Client(Tcp.TimerFires(0, Tcp.AtOnce(true), []));
    Lost(s, bound);
    hide Tcp.Next, Tcp.Sole, Tcp.Enabled, Tcp.Good;
    var s1 := Next(s, Inner(HangUp), bound);
    Tcp.SoleStep(s1.client, Tcp.Advance(Tcp.INITIAL_BACKOFF));
    Tcp.Passes(s1.client, Tcp.INITIAL_BACKOFF);
    hide LogPipeline.Next, LogPipeline.Enabled;
    var s2 := Next(s1, delay, bound);
    Tcp.RetrySucceeds(s2.client);
    var s3 := Next(s2, retry, bound);
    hide Enabled, Next, CanRun, Exec;
    NoStep(s3, bound);
    OneMoreStep(s2, retry, [], bound);
    steps := [retry] + [];
    OneMoreStep(s1, delay, steps, bound);
    steps := [delay] + steps;
    OneMoreStep(s, Inner(HangUp), steps, bound);
    steps := [Inner(HangUp)] + steps;
  }

  /** The notice of the old connection is run on the new one, which has nothing to flush. */
  lemma RunsOldNotice(s: Rounds, bound: nat) returns (steps: seq<Step>)
    requires Open(s.p) && AtRest(s.p) && s.p.c.out == [] && s.p.functors == [HighWater] && !s.running
    ensures CanRun(s, steps, bound) && Wedged(Exec(s, steps, bound).p)
  {
    var s1 := Next(s, Swap, bound);
    var s2 := Next(s1, Inner(RunFunctor), bound);
    assert Wedged(s2.p);
    hide Enabled, Next, Wedged, CanRun, Exec;
    NoStep(s2, bound);
    OneMoreStep(s1, Inner(RunFunctor), [], bound);
    OneMoreStep(s, Swap, [Inner(RunFunctor)] + [], bound);
    steps := [Swap] + ([Inner(RunFunctor)] + []);
  }

  lemma {:induction false} StepsOn(s: Rounds, a: seq<Step>, b: seq<Step>, bound: nat)
    requires CanRun(s, a, bound) && CanRun(Exec(s, a, bound), b, bound)
    ensures CanRun(s, a + b, bound) && Exec(s, a + b, bound) == Exec(Exec(s, a, bound), b, bound)
    decreases |a|
  {
    hide Enabled, Next;
    if a == [] {
      assert a + b == b;
    } else {
      assert (a + b)[1..] == a[1..] + b;
      StepsOn(Next(s, a[0], bound), a[1..], b, bound);
    }
  }

  /** A push wakes the loop, whose functor is swapped in. */
  lemma PushWakes(s: Rounds, m: bytes, bound: nat) returns (steps: seq<Step>)
    requires Quiet(s.p) && !s.running
    ensures CanRun(s, steps, bound)
    ensures var t := Exec(s, steps, bound);
            && t.running && t.left == 1 && t.p.functors == [WakeTick] && Open(t.p) && AtRest(t.p) && !t.p.paused
            && t.p.c == s.p.c && t.p.log.q.items == [m] && t.p.log.q.dropped == s.p.log.q.dropped
            && t.p.mark == s.p.mark && t.p.maxBatch == s.p.maxBatch && t.client == s.client
  {
    var push, raise := Inner(Producer(Log.PushSection(0, m))), Inner(Producer(Log.PushRaise(0)));
    var s1 := Next(s, push, bound);
    assert s1.p.log.q.items == [m] && s1.p.log.raising == {0} && s1.p.waking == {};
    var s2 := Next(s1, raise, bound);
    assert s2.p.waking == {0};
    var s3 := Next(s2, Inner(PostWake(0)), bound);
    var s4 := Next(s3, Swap, bound);
    hide Enabled, Next, CanRun, Exec;
    NoStep(s4, bound);
    OneMoreStep(s3, Swap, [], bound);
    steps := [Swap] + [];
    OneMoreStep(s2, Inner(PostWake(0)), steps, bound);
    steps := [Inner(PostWake(0))] + steps;
    OneMoreStep(s1, raise, steps, bound);
    steps := [raise] + steps;
    OneMoreStep(s, push, steps, bound);
    steps := [push] + steps;
  }

  lemma BlockedCrosses(c: Connection.Conn, data: bytes, mark: nat)
    requires c.phase == Connection.Connected && c.out == [] && 0 < mark <= |data|
    ensures Connection.Crosses(c, data, [Connection.WouldBlock], mark)
    ensures Connection.Sent(c, data, [Connection.WouldBlock]).phase == Connection.Connected
  {
  }

  /** The wake tick drains the message. */
  lemma DrainsOne(s: Rounds, m: bytes, bound: nat) returns (steps: seq<Step>)
    requires s.running && s.left == 1 && s.p.functors == [WakeTick] && Open(s.p) && AtRest(s.p) && !s.p.paused
    requires s.p.log.q.items == [m] && s.p.log.q.dropped == 0 && s.p.maxBatch > 0
    ensures CanRun(s, steps, bound)
    ensures var t := Exec(s, steps, bound);
            && t.p.toSend == [Log.Message(m)] && t.p.functors == [] && t.p.log.drainer.Idle?
            && t.p.c == s.p.c && t.p.mark == s.p.mark && t.running && t.left == 0 && t.client == s.client
  {
    hide Tcp.Good, Tcp.Next, Tcp.Enabled;
    var remove := Inner(Drain(Log.DrainRemove(s.p.maxBatch)));
    var s1 := Next(s, Inner(RunFunctor), bound);
    assert s1.p.log.drainer == Log.Counted(0) && s1.p.functors == [];
    var s2 := Next(s1, remove, bound);
    assert s2.p.log.drainer == Log.Locked([Log.Message(m)]);
    var s3 := Next(s2, Inner(Drain(Log.DrainSettle)), bound);
    var s4 := Next(s3, Inner(StartBatch), bound);
    hide Enabled, Next, CanRun, Exec;
    NoStep(s4, bound);
    OneMoreStep(s3, Inner(StartBatch), [], bound);
    steps := [Inner(StartBatch)] + [];
    OneMoreStep(s2, Inner(Drain(Log.DrainSettle)), steps, bound);
    steps := [Inner(Drain(Log.DrainSettle))] + steps;
    OneMoreStep(s1, remove, steps, bound);
    steps := [remove] + steps;
    OneMoreStep(s, Inner(RunFunctor), steps, bound);
    steps := [Inner(RunFunctor)] + steps;
  }

  /** The kernel takes none of it, and the backlog reaches the mark.  The notice then waits for
      the functors of the next round. */
  lemma FillsUp(s: Rounds, m: bytes, bound: nat) returns (steps: seq<Step>)
    requires s.running && s.left == 0 && s.p.functors == [] && Open(s.p) && s.p.log.drainer.Idle?
    requires s.p.toSend == [Log.Message(m)] && s.p.c.out == [] && 0 < s.p.mark <= |m|
    ensures CanRun(s, steps, bound)
    ensures var t := Exec(s, steps, bound);
            && Open(t.p) && AtRest(t.p) && t.p.functors == [HighWater] && !t.running
            && t.began == t.client.now && t.client == s.client
  {
    var send := Inner(SendNext([Connection.WouldBlock]));
    BlockedCrosses(s.p.c, Framing.Frame(m), s.p.mark);
    var s1 := Next(s, send, bound);
    var s2 := Next(s1, NextRound, bound);
    hide Enabled, Next, CanRun, Exec;
    NoStep(s2, bound);
    OneMoreStep(s1, NextRound, [], bound);
    steps := [NextRound] + [];
    OneMoreStep(s, send, steps, bound);
    steps := [send] + steps;
  }

  lemma SlowDispatchWedges(cap: nat, mark: nat, maxBatch: nat, bound: nat) returns (steps: seq<Step>)
    requires cap > 0 && maxBatch > 0 && mark > 0 && bound >= Tcp.INITIAL_BACKOFF
    ensures CanRun(Start(cap, mark, maxBatch), steps, bound)
    ensures Wedged(Exec(Start(cap, mark, maxBatch), steps, bound).p)
  {
    var s := Start(cap, mark, maxBatch);
    FirstIsQuiet(cap, mark, maxBatch);
    Tcp.FirstConnection();
    var m: bytes := seq(mark, _ => 65);
    hide Quiet, Enabled, Next, Wedged, CanRun, Exec;
    var a := PushWakes(s, m, bound);
    var s1 := Exec(s, a, bound);
    var b := DrainsOne(s1, m, bound);
    var s2 := Exec(s1, b, bound);
    var c := FillsUp(s2, m, bound);
    var s3 := Exec(s2, c, bound);
    var d := ComesBack(s3, bound);
    var e := RunsOldNotice(Exec(s3, d, bound), bound);
    StepsOn(s3, d, e, bound);
    StepsOn(s2, c, d + e, bound);
    StepsOn(s1, b, c + (d + e), bound);
    StepsOn(s, a, b + (c + (d + e)), bound);
    steps := a + (b + (c + (d + e)));
  }

  /** Over any number of connections, backpressure never wedges the sender exactly when it is
      switched off or no round's dispatch lasts as long as the first retry delay.  In a dispatch
      that does, the connection can be lost and replaced with the high-water notice of the old
      one still queued, and on_high_water does not ask which connection it is about. */
  lemma NeverWedgedIffDispatchIsShort(cap: nat, mark: nat, maxBatch: nat, bound: nat)
    requires cap > 0 && maxBatch > 0
    ensures (forall steps :: CanRun(Start(cap, mark, maxBatch), steps, bound) ==>
               !Wedged(Exec(Start(cap, mark, maxBatch), steps, bound).p))
            <==> mark == 0 || bound < Tcp.INITIAL_BACKOFF
  {
    var s := Start(cap, mark, maxBatch);
    Tcp.FirstConnection();
    hide Tcp.Next;
    if mark == 0 || bound < Tcp.INITIAL_BACKOFF {
      assert Safe(s, bound);
      forall steps | CanRun(s, steps, bound)
        ensures !Wedged(Exec(s, steps, bound).p)
      {
        SafeRun(s, steps, bound);
        NotWedged(Exec(s, steps, bound).p);
      }
    } else {
      var steps := SlowDispatchWedges(cap, mark, maxBatch, bound);
    }
  }

  // ----- the stream of every connection -----

  lemma {:induction false} EveryConnection(s: Rounds, steps: seq<Step>, bound: nat)
    requires Log.Inv(s.p.log) && OnTheWire(s.p) && CanRun(s, steps, bound)
    ensures var t := Exec(s, steps, bound);
            && Log.Inv(t.p.log) && OnTheWire(t.p)
            && Log.Values(t.p.log.handed[..t.p.base]) + Log.Values(t.p.sent) <= t.p.log.accepted
    decreases |steps|
  {
    if steps == [] {
      SentInPushOrder(s.p);
    } else {
      var t := Next(s, steps[0], bound);
      if steps[0].Inner? {
        LogStep(s.p, steps[0].e);
        WireStep(s.p, steps[0].e);
      } else if steps[0].Client? && t.p != s.p {
        BeginsOnTheWire(t.p);
      }
      hide Log.Inv, OnTheWire, Next, Enabled;
      EveryConnection(t, steps[1..], bound);
    }
  }

  /** A receiver of any connection, the present or one just lost, has got without error a prefix
      of the payloads sent on it. */
  lemma EveryReceiver(cap: nat, mark: nat, maxBatch: nat, steps: seq<Step>, bound: nat, chunks: seq<bytes>, max: nat)
    requires CanRun(Start(cap, mark, maxBatch), steps, bound) && 48 <= max <= Framing.SAFE_LIMIT
    requires var p := Exec(Start(cap, mark, maxBatch), steps, bound).p;
             WithinLimits(p.log, max) && Flatten(chunks) <= p.c.taken
    ensures var p := Exec(Start(cap, mark, maxBatch), steps, bound).p;
            var got := Framing.Feed(Framing.FRESH, chunks, max);
            && got.verdict == Framing.Good && got.frames <= Payloads(p.sent)
            && (Open(p) && p.c.out == [] && Flatten(chunks) == p.c.taken ==>
                  got.frames == Payloads(p.sent) && got.rest == [])
  {
    var s := Start(cap, mark, maxBatch);
    Log.Initially<bytes>(cap);
    BeginsOnTheWire(s.p);
    hide Log.Inv, OnTheWire, CanRun, Exec, Framing.Feed, WithinLimits;
    EveryConnection(s, steps, bound);
    Received(Exec(s, steps, bound).p, chunks, max);
  }

  // ----- the rounds are those of the event loop -----

  function Code(f: Functor): Ev.Functor {
    match f
    case HighWater => 0
    case WriteComplete => 1
    case WakeTick => 2
  }

  function Codes(fs: seq<Functor>): (r: seq<Ev.Functor>)
    ensures |r| == |fs| && forall i :: 0 <= i < |fs| ==> r[i] == Code(fs[i])
  {
    seq(|fs|, i requires 0 <= i < |fs| => Code(fs[i]))
  }

  /** The loop of EventLoop.dfy, between two of its own steps, with the same functors queued and
      the same batch under way. */
  ghost predicate Shows(l: Ev.Loop, s: Rounds) {
    && s.left <= |s.p.functors| && (!s.running ==> s.left == 0)
    && l.batch == Codes(s.p.functors[..s.left]) && l.pending == Codes(s.p.functors[s.left..])
    && l.pc == (if s.running then Ev.Running else Ev.Dispatching(false))
    && !l.midPost && l.posters == {} && l.quitters == {} && !l.quit
  }

  /** A step of the pipeline runs the oldest functor, or queues at most one. */
  lemma QueuesAtMostOne(s: State, e: Event) returns (more: seq<Functor>)
    requires LogPipeline.Enabled(s, e) && !e.RunFunctor?
    ensures LogPipeline.Next(s, e).functors == s.functors + more && |more| <= 1
    ensures e.PostWake? ==> more == [WakeTick]
  {
    hide Connection.Sent, Connection.Flushed, Connection.Crosses, Connection.Completes, Framing.Frame, Remark;
    var t := LogPipeline.Next(s, e);
    more := t.functors[|s.functors|..];
  }

  lemma ShowsQueued(l: Ev.Loop, s: Rounds, t: Rounds, k: Ev.Loop, f: Functor)
    requires Shows(l, s) && t.p.functors == s.p.functors + [f] && t.left == s.left && t.running == s.running
    requires k.batch == l.batch && k.pending == l.pending + [Code(f)] && k.pc == l.pc
    requires !k.midPost && k.posters == {} && k.quitters == {} && !k.quit
    ensures Shows(k, t)
  {
    assert t.p.functors[..t.left] == s.p.functors[..s.left];
    assert t.p.functors[t.left..] == s.p.functors[s.left..] + [f];
  }

  /** Another thread queues a functor and signals. */
  lemma PostedElsewhere(l: Ev.Loop, t: Ev.Thread, f: Ev.Functor) returns (k: Ev.Loop, es: seq<Ev.Event>)
    requires l.posters == {} && l.quitters == {}
    ensures Ev.CanRun(l, es) && k == Ev.Exec(l, es)
    ensures k.batch == l.batch && k.pending == l.pending + [f] && k.pc == l.pc
    ensures k.midPost == l.midPost && k.posters == {} && k.quitters == {} && k.quit == l.quit
  {
    var l1 := Ev.Next(l, Ev.Post(t, f));
    k := Ev.Next(l1, Ev.Write(t));
    assert Ev.CanRun(k, []) && Ev.Exec(k, []) == k;
    Ev.OneMore(l1, Ev.Write(t), []);
    Ev.OneMore(l, Ev.Post(t, f), [Ev.Write(t)] + []);
    es := [Ev.Post(t, f)] + ([Ev.Write(t)] + []);
  }

  /** The loop thread queues a functor, and signals if it does so while running functors. */
  lemma PostedHere(l: Ev.Loop, f: Ev.Functor) returns (k: Ev.Loop, es: seq<Ev.Event>)
    requires !l.midPost && (l.pc == Ev.Running || l.pc == Ev.Dispatching(false))
    ensures Ev.CanRun(l, es) && k == Ev.Exec(l, es)
    ensures k.batch == l.batch && k.pending == l.pending + [f] && k.pc == l.pc
    ensures !k.midPost && k.posters == l.posters && k.quitters == l.quitters && k.quit == l.quit
  {
    var l1 := Ev.Next(l, Ev.LoopPost(f));
    if l1.midPost {
      k := Ev.Next(l1, Ev.LoopWrite);
      assert Ev.CanRun(k, []) && Ev.Exec(k, []) == k;
      Ev.OneMore(l1, Ev.LoopWrite, []);
      Ev.OneMore(l, Ev.LoopPost(f), [Ev.LoopWrite] + []);
      es := [Ev.LoopPost(f)] + ([Ev.LoopWrite] + []);
    } else {
      k := l1;
      assert Ev.CanRun(k, []) && Ev.Exec(k, []) == k;
      Ev.OneMore(l, Ev.LoopPost(f), []);
      es := [Ev.LoopPost(f)] + [];
    }
  }

  /** The oldest functor of the batch is run. */
  lemma RanOne(l: Ev.Loop, s: Rounds, bound: nat) returns (es: seq<Ev.Event>)
    requires Shows(l, s) && Enabled(s, Inner(RunFunctor), bound)
    ensures Ev.CanRun(l, es) && Shows(Ev.Exec(l, es), Next(s, Inner(RunFunctor), bound))
  {
    es := [Ev.RunNext];
    assert es[1..] == [];
    var fs := s.p.functors;
    assert fs[1..][..s.left - 1] == fs[..s.left][1..] && fs[1..][s.left - 1..] == fs[s.left..];
    assert Codes(fs[..s.left])[1..] == Codes(fs[..s.left][1..]);
    assert Next(s, Inner(RunFunctor), bound).p.functors == fs[1..];
  }

  lemma Turned(l: Ev.Loop, s: Rounds, step: Step, bound: nat) returns (es: seq<Ev.Event>)
    requires Shows(l, s) && Enabled(s, step, bound) && (step.Swap? || step.NextRound?)
    ensures Ev.CanRun(l, es) && Shows(Ev.Exec(l, es), Next(s, step, bound))
  {
    var fs := s.p.functors;
    assert fs[0..] == fs && fs[..0] == [] && fs[..|fs|] == fs && fs[|fs|..] == [];
    if step.Swap? {
      es := [Ev.Swap];
      assert es[1..] == [];
    } else {
      es := [Ev.EndBatch, Ev.Check, Ev.Report(false)];
      assert es[1..] == [Ev.Check, Ev.Report(false)] && es[1..][1..] == [Ev.Report(false)] && es[1..][1..][1..] == [];
      var l1 := Ev.Next(l, Ev.EndBatch);
      var l2 := Ev.Next(l1, Ev.Check);
      assert Ev.CanRun(l2, [Ev.Report(false)]) && Ev.CanRun(l1, es[1..]);
      assert Ev.Exec(l, es) == Ev.Next(l2, Ev.Report(false));
    }
  }

  /** Every step of the rounds is a run of the event loop's own machine. */
  lemma StepIsARun(l: Ev.Loop, s: Rounds, step: Step, bound: nat) returns (es: seq<Ev.Event>)
    requires Shows(l, s) && Enabled(s, step, bound)
    ensures Ev.CanRun(l, es) && Shows(Ev.Exec(l, es), Next(s, step, bound))
  {
    if step.Swap? || step.NextRound? {
      es := Turned(l, s, step, bound);
    } else if step == Inner(RunFunctor) {
      es := RanOne(l, s, bound);
    } else {
      es := [];
      if step.Inner? {
        var more := QueuesAtMostOne(s.p, step.e);
        if more != [] {
          var k;
          if step.e.PostWake? {
            k, es := PostedElsewhere(l, step.e.t, Code(more[0]));
          } else {
            k, es := PostedHere(l, Code(more[0]));
          }
          assert more == [more[0]];
          ShowsQueued(l, s, Next(s, step, bound), k, more[0]);
        }
      } else {
        assert step.Client? || step.Pass?;
        SameFunctors(s, step, bound);
      }
    }
  }

  lemma SameFunctors(s: Rounds, step: Step, bound: nat)
    requires Enabled(s, step, bound) && (step.Client? || step.Pass?)
    ensures var t := Next(s, step, bound);
            t.p.functors == s.p.functors && t.left == s.left && t.running == s.running
  {
  }

  /** So is every run of the rounds. */
  lemma {:induction false} RoundsAreRuns(l: Ev.Loop, s: Rounds, steps: seq<Step>, bound: nat)
      returns (es: seq<Ev.Event>)
    requires Shows(l, s) && CanRun(s, steps, bound)
    ensures Ev.CanRun(l, es) && Shows(Ev.Exec(l, es), Exec(s, steps, bound))
    decreases |steps|
  {
    hide Shows, Enabled, Next, Ev.Next, Ev.Enabled;
    if steps == [] {
      es := [];
    } else {
      var first := StepIsARun(l, s, steps[0], bound);
      var rest := RoundsAreRuns(Ev.Exec(l, first), Next(s, steps[0], bound), steps[1..], bound);
      Ev.RunOn(l, first, rest);
      es := first + rest;
    }
  }
}
