/**
 What the log pipeline of LogPipeline.dfy can always still do, shown by runs that exist: a drain
 can be finished, the queued functors can be run, every accepted message can be delivered.  From
 there, exactly when backpressure wedges the sender, and how many tick timers there are.
 */
module LogProgress {
  import opened Bytes
  import opened Framing
  import opened LogPipeline
  import Connection
  import Log = LogProtocol

  lemma OneMore(s: State, e: Event, es: seq<Event>)
    requires Enabled(s, e) && CanRun(Next(s, e), es)
    ensures CanRun(s, [e] + es) && Exec(s, [e] + es) == Exec(Next(s, e), es)
  {
    hide Enabled, Next;
    assert ([e] + es)[1..] == es;
  }

  lemma {:induction false} RunOn(s: State, a: seq<Event>, b: seq<Event>)
    requires CanRun(s, a) && CanRun(Exec(s, a), b)
    ensures CanRun(s, a + b) && Exec(s, a + b) == Exec(Exec(s, a), b)
    decreases |a|
  {
    hide Enabled, Next;
    if a == [] {
      assert a + b == b;
    } else {
      assert (a + b)[1..] == a[1..] + b;
      RunOn(Next(s, a[0]), a[1..], b);
    }
  }

  /** The loop has gone on without the producers: nothing was pushed, the connection is up, no
      tick chain was lost and the queue has not grown. */
  ghost predicate WentOn(s: State, t: State) {
    && t.mark == s.mark && t.maxBatch == s.maxBatch && t.waking == s.waking && t.base == s.base
    && t.log.accepted == s.log.accepted && t.log.raising == s.log.raising && t.log.counting == s.log.counting
    && t.log.q.cap == s.log.q.cap && |t.log.q.items| <= |s.log.q.items|
    && t.ticks >= s.ticks && Open(t)
  }

  /** Without a backlog the kernel can take everything, and then nothing else changes. */
  ghost predicate StaysFlushed(s: State, t: State) {
    && t.paused == s.paused && t.ticks == s.ticks
    && (s.c.out == [] ==> t.c.out == [] && t.functors == s.functors)
  }

  lemma AllTaken(c: Connection.Conn, data: bytes)
    requires c.phase == Connection.Connected && data != []
    ensures var d := Connection.Sent(c, data, [Connection.Wrote(|data|)]);
            d.phase == Connection.Connected && (c.out == [] ==> d.out == [])
  {
    var answers := [Connection.Wrote(|data|)];
    assert data[|data|..] == [];
    assert Connection.WriteLoop([], answers[1..]).end == Connection.Drained;
    assert Connection.WriteLoop(data, answers).end == Connection.Drained;
  }

  lemma SendStep(s: State) returns (e: Event)
    requires Open(s) && s.toSend != []
    ensures Enabled(s, e)
    ensures var t := Next(s, e);
            t.toSend == s.toSend[1..] && t.log == s.log && WentOn(s, t) && StaysFlushed(s, t)
  {
    var data := Frame(Payload(s.toSend[0]));
    assert |data| >= 4;
    e := SendNext([Connection.Wrote(|data|)]);
    AllTaken(s.c, data);
    hide Connection.Sent, Frame, Payload;
  }

  lemma {:induction false} SendRest(s: State) returns (es: seq<Event>)
    requires Open(s)
    ensures CanRun(s, es)
    ensures var t := Exec(s, es);
            t.toSend == [] && t.log == s.log && WentOn(s, t) && StaysFlushed(s, t)
    decreases |s.toSend|
  {
    hide Enabled, Next;
    if s.toSend == [] {
      es := [];
    } else {
      var e := SendStep(s);
      var rest := SendRest(Next(s, e));
      es := [e] + rest;
      OneMore(s, e, rest);
    }
  }

  function Stage(d: Log.Drainer<bytes>): nat {
    match d
    case Idle => 0
    case Holding(_) => 1
    case Locked(_) => 2
    case Counted(_) => 3
  }

  /** One step of do_drain_and_send, up to the call of send_batch. */
  lemma DrainStep(s: State) returns (e: Event)
    requires Open(s) && s.toSend == [] && !s.log.drainer.Idle?
    ensures Enabled(s, e)
    ensures var t := Next(s, e);
            && Stage(t.log.drainer) < Stage(s.log.drainer) && WentOn(s, t) && t.functors == s.functors
            && t.c == s.c && t.paused == s.paused && t.ticks == s.ticks
            && (s.log.drainer.Counted? && s.maxBatch > 0 && s.log.q.items != [] ==>
                  |t.log.q.items| < |s.log.q.items|)
            && (s.log.drainer.Counted? && s.maxBatch > 0 ==> t.log.drainer.Locked?)
            && (s.log.drainer.Locked? && t.log.q.items == [] ==> !t.log.q.pending)
            && (s.log.drainer.Holding? ==> t.log.q == s.log.q)
  {
    match s.log.drainer
    case Counted(_) => e := Drain(Log.DrainRemove(s.maxBatch));
    case Locked(_) => e := Drain(Log.DrainSettle);
    case Holding(_) => e := StartBatch;
  }

  /** Has the drain at hand still to look at the queue? */
  predicate Drains(s: State) {
    s.log.drainer.Counted? && s.maxBatch > 0
  }

  /** do_drain_and_send can always be brought to its end. */
  lemma {:induction false} FinishDrain(s: State) returns (es: seq<Event>)
    requires Open(s)
    ensures CanRun(s, es)
    ensures var t := Exec(s, es);
            && AtRest(t) && WentOn(s, t) && StaysFlushed(s, t)
            && (Drains(s) && s.log.q.items != [] ==> |t.log.q.items| < |s.log.q.items|)
            && (Drains(s) || s.log.drainer.Locked? ==> t.log.q.items == [] ==> !t.log.q.pending)
            && (s.log.drainer.Idle? || s.log.drainer.Holding? ==> t.log.q == s.log.q)
    decreases Stage(s.log.drainer)
  {
    hide Enabled, Next;
    var first := SendRest(s);
    var t := Exec(s, first);
    if t.log.drainer.Idle? {
      es := first;
    } else {
      var e := DrainStep(t);
      var rest := FinishDrain(Next(t, e));
      OneMore(t, e, rest);
      RunOn(s, first, [e] + rest);
      es := first + ([e] + rest);
    }
  }

  /** The loop can run everything queued, ending paused or not as the last callback says. */
  lemma {:induction false} RunAllFunctors(s: State) returns (es: seq<Event>)
    requires Open(s) && AtRest(s) && s.c.out == []
    ensures CanRun(s, es)
    ensures var t := Exec(s, es);
            && AtRest(t) && t.functors == [] && t.c.out == [] && t.paused == PausedAfter(s.paused, s.functors)
            && WentOn(s, t)
    decreases |s.functors|
  {
    if s.functors == [] {
      es := [];
    } else {
      var t := Next(s, RunFunctor);
      assert WentOn(s, t) && t.functors == s.functors[1..] && t.c == s.c;
      hide Enabled, Next;
      var drain := FinishDrain(t);
      var rest := RunAllFunctors(Exec(t, drain));
      RunOn(t, drain, rest);
      es := [RunFunctor] + (drain + rest);
      OneMore(s, RunFunctor, drain + rest);
    }
  }

  // ----- never wedged -----

  /** Backpressure never wedges the sender, whatever the kernel, the producers and the loop
      do, exactly when no high-water notice left over in the loop's queue lacks a resume behind
      it: such a notice would pause the new connection, which has nothing to flush and so
      nothing to resume it. */
  lemma NeverWedgedIff(s: State)
    requires Begins(s)
    ensures (forall es :: CanRun(s, es) ==> !Wedged(Exec(s, es))) <==> !LeavesPaused(s.functors)
  {
    BeginsOnTheWire(s);
    PausedAfterMeans(false, s.functors);
    hide Log.Inv, CanRun, Exec, Next, Enabled, LeavesPaused, MarksAlternate, OnTheWire, PausedAfter;
    if PausedAfter(false, s.functors) {
      var es := RunAllFunctors(s);
      assert Wedged(Exec(s, es));
    } else {
      forall es | CanRun(s, es)
        ensures !Wedged(Exec(s, es))
      {
        RunFrom(s, es);
        NotWedged(Exec(s, es));
      }
    }
  }

  lemma NotWedged(s: State)
    requires Resumes(s)
    ensures !Wedged(s)
  {
    LastCallbackDecides(s.paused, s.functors);
  }

  /** Whenever the sender is paused, a resume is queued or there is a backlog with EPOLLOUT
      on; and a queued high-water notice has a backlog or a later resume behind it. */
  lemma PausedMakesProgress(s0: State, es: seq<Event>)
    requires Begins(s0) && !LeavesPaused(s0.functors) && CanRun(s0, es) && Open(Exec(s0, es))
    ensures var s := Exec(s0, es);
            && (s.paused ==> WriteComplete in s.functors || (s.c.out != [] && s.c.writing))
            && (forall i :: 0 <= i < |s.functors| && s.functors[i] == HighWater ==>
                  s.c.out != [] || exists j :: i < j < |s.functors| && s.functors[j] == WriteComplete)
            && MarksAlternate(s)
  {
    hide Log.Inv, CanRun, Exec, Next, Enabled;
    BeginsOnTheWire(s0);
    PausedAfterMeans(false, s0.functors);
    RunFrom(s0, es);
    var s := Exec(s0, es);
    LastCallbackDecides(s.paused, s.functors);
  }

  // ----- every accepted message can be delivered -----

  /** A backlog can be flushed. */
  lemma FlushAll(s: State) returns (e: Event)
    requires Open(s) && AtRest(s)
    ensures Enabled(s, e)
    ensures var t := Next(s, e);
            t.c.out == [] && AtRest(t) && WentOn(s, t) && t.log == s.log
  {
    e := Writable([Connection.Wrote(|s.c.out|)]);
    if s.c.out != [] {
      assert s.c.out[|s.c.out|..] == [];
      assert Connection.WriteLoop([], []) == Connection.Written([], [], Connection.Drained);
      assert Connection.WriteLoop(s.c.out, [Connection.Wrote(|s.c.out|)]).end == Connection.Drained;
    }
  }

  /** Tick by tick the queue can be emptied. */
  lemma {:induction false} DrainAll(s: State) returns (es: seq<Event>)
    requires Open(s) && AtRest(s) && s.c.out == [] && s.functors == [] && !s.paused
    requires s.ticks > 0 && s.maxBatch > 0
    ensures CanRun(s, es)
    ensures var t := Exec(s, es);
            AtRest(t) && t.c.out == [] && t.log.q.items == [] && WentOn(s, t)
    decreases |s.log.q.items|
  {
    if s.log.q.items == [] {
      es := [];
    } else {
      var t := Next(s, TickTimer);
      assert Drains(t) && WentOn(s, t) && t.c == s.c && t.functors == [] && !t.paused && t.log.q.items == s.log.q.items;
      assert t.ticks == s.ticks;
      hide Enabled, Next;
      var drain := FinishDrain(t);
      var rest := DrainAll(Exec(t, drain));
      RunOn(t, drain, rest);
      es := [TickTimer] + (drain + rest);
      OneMore(s, TickTimer, drain + rest);
    }
  }

  lemma DeliveredWhenDrained(t: State)
    requires Log.Inv(t.log) && OnTheWire(t) && Open(t) && AtRest(t) && t.c.out == [] && t.log.q.items == []
    ensures Log.Values(t.log.handed[..t.base]) + Log.Values(t.sent) == t.log.accepted
    ensures t.c.taken == Frames(Payloads(t.sent))
  {
    assert t.sent + [] == t.sent;
    assert t.log.handed == t.log.handed[..t.base] + t.sent;
    Log.ValuesSplit(t.log.handed[..t.base], t.sent);
    assert Log.Values(Log.Batch(t.log.drainer)) == [];
    assert t.c.taken + [] == t.c.taken;
  }

  /** From every state of every run with a tick timer pending, the loop and the kernel can go on
      so that every message accepted so far is sent, except what earlier connections took with
      them, and every byte of it is with the kernel. */
  lemma CanDeliver(s: State) returns (es: seq<Event>)
    requires Inv(s) && Open(s) && s.ticks > 0 && s.maxBatch > 0
    ensures CanRun(s, es)
    ensures var t := Exec(s, es);
            && Open(t) && t.base == s.base <= |t.log.handed| && t.log.accepted == s.log.accepted
            && Log.Values(t.log.handed[..t.base]) + Log.Values(t.sent) == s.log.accepted
            && t.c.out == [] && t.c.taken == Frames(Payloads(t.sent))
  {
    hide Log.Inv, MarksAlternate, OnTheWire, PausedAfter, Enabled, Next, CanRun, Exec, Log.Values, Frames, Payloads;
    var a := Flush(s);
    var s1 := Exec(s, a);
    RunFrom(s, a);
    var b := RunAllFunctors(s1);
    var s2 := Exec(s1, b);
    var d := DrainAll(s2);
    RunOn(s1, b, d);
    RunOn(s, a, b + d);
    es := a + (b + d);
    RunFrom(s, es);
    BaseInRange(Exec(s, es));
    DeliveredWhenDrained(Exec(s, es));
  }

  lemma BaseInRange(s: State)
    requires OnTheWire(s)
    ensures s.base <= |s.log.handed|
  {
  }

  /** The loop can finish what it is doing and then flush the backlog. */
  lemma Flush(s: State) returns (es: seq<Event>)
    requires Open(s)
    ensures CanRun(s, es)
    ensures var t := Exec(s, es);
            AtRest(t) && t.c.out == [] && WentOn(s, t)
  {
    hide Enabled, Next;
    var a := FinishDrain(s);
    var t := Exec(s, a);
    var e := FlushAll(t);
    JustExec(Next(t, e));
    OneMore(t, e, []);
    RunOn(s, a, [e] + []);
    es := a + ([e] + []);
  }

  lemma JustExec(s: State)
    ensures CanRun(s, []) && Exec(s, []) == s
  {
  }

  // ----- tick timers -----

  /** How many pushes have returned wake_up. */
  function Wakes(edges: seq<Log.Edge>): nat {
    if edges == [] then 0 else Wakes(edges[..|edges| - 1]) + if edges[|edges| - 1] == Log.Wake then 1 else 0
  }

  function QueuedWakes(functors: seq<Functor>): nat {
    if functors == [] then 0 else (if functors[0] == WakeTick then 1 else 0) + QueuedWakes(functors[1..])
  }

  /** Tick timers set, and wake ticks queued or about to be queued, each of which will set one. */
  function Chains(s: State): nat {
    s.ticks + QueuedWakes(s.functors) + |s.waking|
  }

  lemma {:induction false} QueuedWakesSnoc(functors: seq<Functor>, f: Functor)
    ensures QueuedWakes(functors + [f]) == QueuedWakes(functors) + if f == WakeTick then 1 else 0
  {
    if functors == [] {
      assert functors + [f] == [f];
    } else {
      assert (functors + [f])[1..] == functors[1..] + [f];
      QueuedWakesSnoc(functors[1..], f);
    }
  }

  lemma WakesSnoc(edges: seq<Log.Edge>, e: Log.Edge)
    ensures Wakes(edges + [e]) == Wakes(edges) + if e == Log.Wake then 1 else 0
  {
    assert (edges + [e])[..|edges|] == edges;
  }

  /** Only the raising of the flag by a push adds a wake-up. */
  lemma EdgeStep(l: Log.State<bytes>, e: Log.Event<bytes>)
    requires Log.Enabled(l, e)
    ensures Wakes(Log.Next(l, e).edges) == Wakes(l.edges) + if e.PushRaise? && !l.q.pending then 1 else 0
  {
    WakesSnoc(l.edges, Log.Wake);
    WakesSnoc(l.edges, Log.Emptied);
    hide Wakes;
  }

  /** Does this step make a push return wake_up? */
  predicate WakesUp(s: State, e: Event) {
    e.Producer? && e.e.PushRaise? && !s.log.q.pending
  }

  lemma LogEdges(s: State, e: Event)
    requires Enabled(s, e)
    ensures Wakes(Next(s, e).log.edges) == Wakes(s.log.edges) + if WakesUp(s, e) then 1 else 0
  {
    hide Wakes, Log.Next, Connection.Sent, Connection.Flushed;
    match e
    case Producer(p) => EdgeStep(s.log, p);
    case Drain(d) => EdgeStep(s.log, d);
    case StartBatch => EdgeStep(s.log, Log.HandOver);
    case TickTimer => EdgeStep(s.log, Log.TakeDropped);
    case RunFunctor => EdgeStep(s.log, Log.TakeDropped);
    case _ =>
  }

  lemma ChainStep(s: State, e: Event)
    requires Enabled(s, e)
    ensures Chains(Next(s, e)) == Chains(s) + if WakesUp(s, e) then 1 else 0
  {
    hide Log.Next, Connection.Sent, Connection.Flushed, Connection.Crosses, Connection.Completes, Remark, Frame;
    match e
    case PostWake(t) =>
      assert s.waking == (s.waking - {t}) + {t};
      QueuedWakesSnoc(s.functors, WakeTick);
    case SendNext(_) => QueuedWakesSnoc(s.functors, HighWater);
    case Writable(_) => QueuedWakesSnoc(s.functors, WriteComplete);
    case _ =>
  }

  lemma {:induction false} ChainRun(s: State, es: seq<Event>)
    requires CanRun(s, es)
    ensures Chains(Exec(s, es)) - Wakes(Exec(s, es).log.edges) == Chains(s) - Wakes(s.log.edges)
    decreases |es|
  {
    if es == [] {
    } else {
      ChainStep(s, es[0]);
      LogEdges(s, es[0]);
      hide Chains, Wakes, Enabled, Next;
      ChainRun(Next(s, es[0]), es[1..]);
    }
  }

  /** Every push that returns wake_up adds a tick chain that nothing cancels: over every run of
      a sender, the timers set and those on their way are one more than the wake-ups. */
  lemma OneChainPerWakeup(cap: nat, mark: nat, maxBatch: nat, es: seq<Event>)
    requires CanRun(First(cap, mark, maxBatch), es)
    ensures Chains(Exec(First(cap, mark, maxBatch), es)) == 1 + Wakes(Exec(First(cap, mark, maxBatch), es).log.edges)
  {
    hide CanRun, Exec;
    ChainRun(First(cap, mark, maxBatch), es);
  }

  lemma {:induction false} NoWakeup(edges: seq<Log.Edge>)
    ensures Wakes(edges) == 0 <==> Log.Wake !in edges
  {
    if edges == [] {
    } else {
      var front := edges[..|edges| - 1];
      assert edges == front + [edges[|edges| - 1]];
      NoWakeup(front);
    }
  }

  lemma {:induction false} NoWakeQueued(functors: seq<Functor>)
    ensures QueuedWakes(functors) == 0 <==> WakeTick !in functors
  {
    if functors == [] {
    } else {
      NoWakeQueued(functors[1..]);
      assert functors == [functors[0]] + functors[1..];
    }
  }

  /** With no wake tick on its way, there is at most one tick timer exactly when no push has ever
      returned wake_up. */
  lemma OneTickTimerIff(cap: nat, mark: nat, maxBatch: nat, es: seq<Event>)
    requires CanRun(First(cap, mark, maxBatch), es)
    requires var s := Exec(First(cap, mark, maxBatch), es);
             WakeTick !in s.functors && s.waking == {}
    ensures var s := Exec(First(cap, mark, maxBatch), es);
            s.ticks <= 1 <==> Log.Wake !in s.log.edges
  {
    hide CanRun, Exec;
    var s := Exec(First(cap, mark, maxBatch), es);
    OneChainPerWakeup(cap, mark, maxBatch, es);
    NoWakeQueued(s.functors);
    NoWakeup(s.log.edges);
  }

  /** Nothing under way and nothing queued anywhere. */
  ghost predicate Quiet(s: State) {
    && Open(s) && AtRest(s) && s.c.out == [] && s.functors == [] && !s.paused && s.waking == {}
    && s.log.raising == {} && s.log.counting == {} && s.log.q.items == [] && !s.log.q.pending
    && s.log.q.cap > 0 && s.maxBatch > 0
  }

  /** A single push with the loop idle leaves everything quiet again and one more tick timer. */
  lemma OneMoreChain(s: State, m: bytes) returns (es: seq<Event>)
    requires Quiet(s)
    ensures CanRun(s, es) && Quiet(Exec(s, es)) && Exec(s, es).ticks == s.ticks + 1
  {
    var s1 := Next(s, Producer(Log.PushSection(0, m)));
    assert s1.log.q.items == [m] && s1.log.raising == {0};
    var s2 := Next(s1, Producer(Log.PushRaise(0)));
    assert s2.waking == {0} && s2.log.raising == {};
    var s3 := Next(s2, PostWake(0));
    assert s3.functors == [WakeTick] && s3.waking == {};
    var s4 := Next(s3, RunFunctor);
    assert Drains(s4) && s4.ticks == s.ticks + 1 && s4.functors == [] && s4.c == s.c && !s4.paused;
    assert s4.log.q.items == [m] && s4.log.q.cap == s.log.q.cap && s4.log.counting == {};
    hide Enabled, Next, CanRun, Exec;
    var drain := FinishDrain(s4);
    OneMore(s3, RunFunctor, drain);
    OneMore(s2, PostWake(0), [RunFunctor] + drain);
    OneMore(s1, Producer(Log.PushRaise(0)), [PostWake(0)] + ([RunFunctor] + drain));
    es := [Producer(Log.PushRaise(0))] + ([PostWake(0)] + ([RunFunctor] + drain));
    OneMore(s, Producer(Log.PushSection(0, m)), es);
    es := [Producer(Log.PushSection(0, m))] + es;
  }

  /** For every n there is a run that ends with n tick timers pending. */
  lemma {:induction false} AnyNumberOfTickTimers(s: State, n: nat) returns (es: seq<Event>)
    requires Quiet(s) && s.ticks <= n
    ensures CanRun(s, es) && Quiet(Exec(s, es)) && Exec(s, es).ticks == n
    decreases n - s.ticks
  {
    hide Quiet, Enabled, Next;
    if s.ticks == n {
      es := [];
    } else {
      var chain := OneMoreChain(s, [65]);
      var rest := AnyNumberOfTickTimers(Exec(s, chain), n);
      RunOn(s, chain, rest);
      es := chain + rest;
    }
  }

  lemma FirstIsQuiet(cap: nat, mark: nat, maxBatch: nat)
    requires cap > 0 && maxBatch > 0
    ensures Quiet(First(cap, mark, maxBatch)) && First(cap, mark, maxBatch).ticks == 1
    ensures Begins(First(cap, mark, maxBatch))
  {
    Log.Initially<bytes>(cap);
  }

  // ----- what backpressure holds back -----

  /** A tick drains exactly when there is a connection and it is not paused. */
  lemma TickDrainsIff(s: State)
    requires Enabled(s, TickTimer)
    ensures !Next(s, TickTimer).log.drainer.Idle? <==> Open(s) && !s.paused
    ensures Next(s, TickTimer).log.q.items == s.log.q.items
  {
  }

  /** The loop thread is at rest with a reason not to drain: paused, or no connection. */
  predicate HeldBack(s: State) {
    AtRest(s) && (s.paused || !Open(s))
  }

  /** Does this step run a write-complete callback? */
  predicate RunsResume(s: State, e: Event) {
    e.RunFunctor? && s.functors != [] && s.functors[0] == WriteComplete
  }

  /** The only step that ends it is a write-complete callback; until then nothing leaves the
      queue, nothing is handed over and the backlog does not grow. */
  lemma HeldBackStep(s: State, e: Event)
    requires HeldBack(s) && Enabled(s, e)
    ensures var t := Next(s, e);
            && t.log.handed == s.log.handed && t.sent == s.sent && AtRest(t)
            && s.log.q.items <= t.log.q.items && |t.c.out| <= |s.c.out| && s.c.taken <= t.c.taken
            && (HeldBack(t) || RunsResume(s, e))
  {
    if e.Writable? {
      FlushShrinks(s.c, e.answers);
      FlushAdds(s.c, e.answers);
    }
    hide Connection.Flushed, Connection.Completes, Remark;
  }

  lemma FlushAdds(c: Connection.Conn, answers: seq<Connection.Answer>)
    ensures c.taken <= Connection.Flushed(c, answers).taken
  {
    hide Connection.WriteLoop;
  }

  /** No step of the run executes a write-complete callback. */
  ghost predicate NoResume(s: State, es: seq<Event>)
    requires CanRun(s, es)
    decreases |es|
  {
    es == [] || (!RunsResume(s, es[0]) && NoResume(Next(s, es[0]), es[1..]))
  }

  /** Over every run without a write-complete callback, a paused sender hands over nothing and
      its backlog does not grow, however long the ticks and pushes go on. */
  lemma {:induction false} HeldBackRun(s: State, es: seq<Event>)
    requires HeldBack(s) && CanRun(s, es) && NoResume(s, es)
    ensures var t := Exec(s, es);
            && HeldBack(t) && t.log.handed == s.log.handed && t.sent == s.sent
            && s.log.q.items <= t.log.q.items && |t.c.out| <= |s.c.out|
    decreases |es|
  {
    if es == [] {
    } else {
      HeldBackStep(s, es[0]);
      hide HeldBack, Enabled, Next, RunsResume;
      HeldBackRun(Next(s, es[0]), es[1..]);
    }
  }

  /** A high-water notice is queued by exactly the steps that take the backlog from below the
      mark to it or above, and those are the ones that `marks` records as crossings. */
  lemma NoticeIffCrossing(s: State, e: Event)
    requires Enabled(s, e)
    ensures var t := Next(s, e);
            && (t.functors == s.functors + [HighWater] <==> |s.c.out| < s.mark <= |t.c.out|)
            && (t.marks == s.marks + [Crossed] <==> |s.c.out| < s.mark <= |t.c.out|)
            && (t.marks == s.marks + [Fell] <==> |t.c.out| < s.mark <= |s.c.out|)
  {
    NotLonger(s.functors);
    RemarkIff(s.marks, s.mark, |s.c.out|, |Next(s, e).c.out|);
    match e
    case Writable(answers) => FlushShrinks(s.c, answers);
    case _ =>
  }

  lemma RemarkIff(marks: seq<Mark>, mark: nat, before: nat, after: nat)
    ensures Remark(marks, mark, before, after) == marks + [Crossed] <==> before < mark <= after
    ensures Remark(marks, mark, before, after) == marks + [Fell] <==> after < mark <= before
    ensures before == after ==> Remark(marks, mark, before, after) == marks
  {
    assert (marks + [Crossed])[|marks|] == Crossed && (marks + [Fell])[|marks|] == Fell;
    assert |marks + [Crossed]| == |marks| + 1;
  }

  /** No sequence is its own extension, and extensions by different elements differ. */
  lemma NotLonger(functors: seq<Functor>)
    ensures functors != functors + [HighWater]
    ensures forall f: Functor :: functors + [f] == functors + [HighWater] ==> f == HighWater
  {
    forall f: Functor | functors + [f] == functors + [HighWater]
      ensures f == HighWater
    {
      assert (functors + [f])[|functors|] == f && (functors + [HighWater])[|functors|] == HighWater;
    }
    assert |functors| != |functors + [HighWater]|;
  }

  /** Losing the connection ends the pause. */
  lemma LossResumes(s: State, e: Event)
    requires Enabled(s, e) && Open(s) && !Open(Next(s, e))
    ensures !Next(s, e).paused
  {
    hide Connection.Sent, Connection.Flushed;
  }
}
