/**
 The task queue of src/event_loop.cpp: functors posted under a lock, an eventfd that wakes
 epoll_wait, and the wait / dispatch / swap / run cycle.  The class is the code of one
 thread at a time; `Loop` and its events interleave any number of posting threads with the
 loop thread, splitting queue_in_loop between its push and its eventfd write.
 */
module EventLoop {
  type Functor = nat
  type Thread = nat

  /** What the functors of a batch queue while they run, in order. */
  function Reposts(batch: seq<Functor>, queues: Functor -> seq<Functor>): seq<Functor> {
    if batch == [] then [] else queues(batch[0]) + Reposts(batch[1..], queues)
  }

  lemma {:induction false} RepostsSnoc(batch: seq<Functor>, f: Functor, queues: Functor -> seq<Functor>)
    ensures Reposts(batch + [f], queues) == Reposts(batch, queues) + queues(f)
  {
    if batch == [] {
      assert batch + [f] == [f];
    } else {
      assert (batch + [f])[1..] == batch[1..] + [f];
      RepostsSnoc(batch[1..], f, queues);
    }
  }

  class EventLoop {
    var pendingFunctors: seq<Functor>
    var callingPendingFunctors: bool
    var wakeupCounter: nat

    constructor ()
      ensures pendingFunctors == [] && !callingPendingFunctors && wakeupCounter == 0
    {
      pendingFunctors, callingPendingFunctors, wakeupCounter := [], false, 0;
    }

    method Wakeup()
      modifies this`wakeupCounter
      ensures wakeupCounter == old(wakeupCounter) + 1
    {
      wakeupCounter := wakeupCounter + 1;
    }

    method HandleWakeup()
      modifies this`wakeupCounter
      ensures wakeupCounter == 0
    {
      wakeupCounter := 0;
    }

    /** Signals unless the loop thread itself posts before this round's swap. */
    method QueueInLoop(f: Functor, inLoopThread: bool)
      modifies this`pendingFunctors, this`wakeupCounter
      ensures pendingFunctors == old(pendingFunctors) + [f]
      ensures wakeupCounter == old(wakeupCounter) + if !inLoopThread || callingPendingFunctors then 1 else 0
    {
      pendingFunctors := pendingFunctors + [f];
      if !inLoopThread || callingPendingFunctors {
        Wakeup();
      }
    }

    /** Runs at once on the loop thread, otherwise queues and signals. */
    method RunInLoop(f: Functor, inLoopThread: bool) returns (ran: seq<Functor>)
      modifies this`pendingFunctors, this`wakeupCounter
      ensures old(pendingFunctors) <= pendingFunctors
      ensures ran + pendingFunctors[|old(pendingFunctors)|..] == [f]
      ensures ran == [f] <==> inLoopThread
      ensures !inLoopThread ==> wakeupCounter == old(wakeupCounter) + 1
    {
      if inLoopThread {
        ran := [f];
      } else {
        QueueInLoop(f, inLoopThread);
        ran := [];
      }
    }

    /** Runs exactly the functors that were queued at the swap; whatever they queue is left
        for the next round, each with its own signal. */
    method DoPendingFunctors(queues: Functor -> seq<Functor>) returns (ran: seq<Functor>)
      modifies this`pendingFunctors, this`callingPendingFunctors, this`wakeupCounter
      ensures ran == old(pendingFunctors)
      ensures pendingFunctors == Reposts(ran, queues)
      ensures wakeupCounter == old(wakeupCounter) + |pendingFunctors|
      ensures !callingPendingFunctors
    {
      callingPendingFunctors := true;
      var functors := pendingFunctors;
      pendingFunctors := [];
      ran := [];
      for i := 0 to |functors|
        invariant ran == functors[..i]
        invariant pendingFunctors == Reposts(ran, queues)
        invariant wakeupCounter == old(wakeupCounter) + |pendingFunctors|
        invariant callingPendingFunctors
      {
        var more := queues(functors[i]);
        for j := 0 to |more|
          invariant pendingFunctors == Reposts(functors[..i], queues) + more[..j]
          invariant wakeupCounter == old(wakeupCounter) + |pendingFunctors|
          invariant callingPendingFunctors
        {
          QueueInLoop(more[j], true);
        }
        RepostsSnoc(ran, functors[i], queues);
        assert more[..|more|] == more;
        ran := ran + [functors[i]];
      }
      callingPendingFunctors := false;
    }
  }

  // ----- interleaved threads -----

  datatype Pc =
    | Checking                        // reads quit_
    | Waiting                         // in epoll_wait
    | Dispatching(reported: bool)     // in the event batch; is the wakeup event still to come?
    | Running                         // in do_pending_functors, after the swap
    | Exited

  datatype Loop = Loop(
    pending: seq<Functor>,
    batch: seq<Functor>,       // swapped out and not yet run
    counter: nat,              // the eventfd
    edge: bool,                // edge-triggered readiness not yet reported
    quit: bool,
    pc: Pc,
    posters: set<Thread>,      // other threads between their push and their eventfd write
    quitters: set<Thread>,     // other threads between quit_ = true and their eventfd write
    midPost: bool,             // the loop thread itself between push and write
    queued: seq<Functor>,      // history: every functor, in lock order
    executed: seq<Functor>,    // history: every functor run, in order
    round: nat,                // history: number of swaps so far
    queuedIn: seq<nat>,        // history: the round in which each was queued
    ranIn: seq<nat>)           // history: the round in which each was run

  datatype Event =
    | Post(t: Thread, f: Functor)   // another thread: push under the lock
    | Write(t: Thread)              // another thread: eventfd write after a push
    | Quit(t: Thread)               // another thread: quit_ = true
    | QuitWrite(t: Thread)          // another thread: eventfd write after quit
    | LoopPost(f: Functor)          // loop thread: push, inside a callback or functor
    | LoopWrite                     // loop thread: eventfd write after a push while running functors
    | LoopQuit                      // loop thread: quit_ = true
    | Check
    | Interrupted                   // epoll_wait returned EINTR
    | Report(wakeup: bool)          // epoll_wait returned; did it report the eventfd?
    | ReadWakeup
    | Swap
    | RunNext
    | EndBatch

  predicate InCallback(s: Loop) {
    !s.midPost && (s.pc.Dispatching? || s.pc == Running)
  }

  predicate Enabled(s: Loop, e: Event) {
    match e
    case Post(t, _) => t !in s.posters && t !in s.quitters
    case Write(t) => t in s.posters
    case Quit(t) => t !in s.posters && t !in s.quitters
    case QuitWrite(t) => t in s.quitters
    case LoopPost(_) => InCallback(s)
    case LoopWrite => s.midPost
    case LoopQuit => InCallback(s)
    case Check => s.pc == Checking
    case Interrupted => s.pc == Waiting
    case Report(wakeup) => s.pc == Waiting && (wakeup ==> s.edge && s.counter > 0)
    case ReadWakeup => s.pc == Dispatching(true)
    case Swap => s.pc == Dispatching(false)
    case RunNext => s.pc == Running && !s.midPost && s.batch != []
    case EndBatch => s.pc == Running && !s.midPost && s.batch == []
  }

  function Pushed(s: Loop, f: Functor): Loop {
    s.(pending := s.pending + [f], queued := s.queued + [f], queuedIn := s.queuedIn + [s.round])
  }

  function Signalled(s: Loop): Loop {
    s.(counter := s.counter + 1, edge := true)
  }

  function Next(s: Loop, e: Event): Loop
    requires Enabled(s, e)
  {
    match e
    case Post(t, f) => Pushed(s, f).(posters := s.posters + {t})
    case Write(t) => Signalled(s).(posters := s.posters - {t})
    case Quit(t) => s.(quit := true, quitters := s.quitters + {t})
    case QuitWrite(t) => Signalled(s).(quitters := s.quitters - {t})
    case LoopPost(f) => Pushed(s, f).(midPost := s.pc == Running)
    case LoopWrite => Signalled(s).(midPost := false)
    case LoopQuit => s.(quit := true)
    case Check => s.(pc := if s.quit then Exited else Waiting)
    case Interrupted => s.(pc := Checking)
    case Report(wakeup) => s.(pc := Dispatching(wakeup), edge := if wakeup then false else s.edge)
    case ReadWakeup => s.(pc := Dispatching(false), counter := 0)
    case Swap => s.(pc := Running, batch := s.pending, pending := [], round := s.round + 1)
    case RunNext => s.(batch := s.batch[1..], executed := s.executed + [s.batch[0]], ranIn := s.ranIn + [s.round])
    case EndBatch => s.(pc := Checking)
  }

  predicate CanRun(s: Loop, es: seq<Event>)
    decreases |es|
  {
    es == [] || (Enabled(s, es[0]) && CanRun(Next(s, es[0]), es[1..]))
  }

  function Exec(s: Loop, es: seq<Event>): Loop
    requires CanRun(s, es)
    decreases |es|
  {
    if es == [] then s else Exec(Next(s, es[0]), es[1..])
  }

  /** The moment loop() is entered, with whatever was queued and signalled before. */
  function Entry(pending: seq<Functor>, counter: nat, posters: set<Thread>): Loop {
    Loop(pending, [], counter, counter > 0, false, Checking, posters, {}, false,
         pending, [], 0, seq(|pending|, _ => 0), [])
  }

  // ----- no lost wakeup -----

  /** Work that is queued while the loop is on its way into epoll_wait is signalled, or its
      poster is about to signal it. */
  ghost predicate NoLostWakeup(s: Loop) {
    && (s.pc in {Checking, Waiting} && s.pending != [] ==> s.counter > 0 || s.posters != {})
    && (s.pc == Running && s.pending != [] ==> s.counter > 0 || s.posters != {} || s.midPost)
  }

  /** A positive eventfd is one that epoll_wait will report or has just reported, although
      the channel is edge-triggered. */
  ghost predicate EdgeKept(s: Loop) {
    s.counter > 0 ==> s.edge || s.pc == Dispatching(true)
  }

  /** Asleep on queued work with nobody about to signal it. */
  ghost predicate Stranded(s: Loop) {
    s.pc == Waiting && s.pending != [] && s.posters == {} && !Enabled(s, Report(true))
  }

  ghost predicate WakeInv(s: Loop) {
    NoLostWakeup(s) && EdgeKept(s) && (s.midPost ==> s.pc == Running)
  }

  lemma WakePreserved(s: Loop, e: Event)
    requires WakeInv(s) && Enabled(s, e)
    ensures WakeInv(Next(s, e))
  {
  }

  lemma {:induction false} WakeRun(s: Loop, es: seq<Event>)
    requires WakeInv(s) && CanRun(s, es)
    ensures WakeInv(Exec(s, es))
    decreases |es|
  {
    if es == [] {
    } else {
      hide WakeInv, Next, Enabled;
      WakePreserved(s, es[0]);
      WakeRun(Next(s, es[0]), es[1..]);
    }
  }

  /** In every interleaving the loop never sleeps on queued work, exactly when what was
      queued before loop() was entered had been signalled or was about to be. */
  lemma NeverStrandedIff(pending: seq<Functor>, counter: nat, posters: set<Thread>)
    ensures var s := Entry(pending, counter, posters);
            (forall es :: CanRun(s, es) ==> !Stranded(Exec(s, es)))
            <==> (pending == [] || counter > 0 || posters != {})
  {
    var s := Entry(pending, counter, posters);
    if pending == [] || counter > 0 || posters != {} {
      forall es | CanRun(s, es)
        ensures !Stranded(Exec(s, es))
      {
        WakeRun(s, es);
      }
    } else {
      var es := [Check];
      assert es[1..] == [];
      assert CanRun(s, es) && Stranded(Exec(s, es));
    }
  }

  // ----- functor order -----

  /** Run, then about to run, then pending: together they are the lock order. */
  ghost predicate InOrder(s: Loop) {
    && s.executed + s.batch + s.pending == s.queued
    && (s.pc != Running ==> s.batch == [])
  }

  /** Every functor runs in exactly the first batch swapped after it was queued. */
  ghost predicate Rounds(s: Loop) {
    && |s.queuedIn| == |s.queued|
    && |s.ranIn| == |s.executed| <= |s.executed| + |s.batch| <= |s.queued|
    && (forall i :: 0 <= i < |s.executed| ==> s.ranIn[i] == s.queuedIn[i] + 1)
    && (forall i :: |s.executed| <= i < |s.executed| + |s.batch| ==> s.queuedIn[i] + 1 == s.round)
    && (forall i :: |s.executed| + |s.batch| <= i < |s.queued| ==> s.queuedIn[i] == s.round)
  }

  lemma OrderPreserved(s: Loop, e: Event)
    requires InOrder(s) && Enabled(s, e)
    ensures InOrder(Next(s, e))
  {
  }

  lemma RoundsPreserved(s: Loop, e: Event)
    requires InOrder(s) && Rounds(s) && Enabled(s, e)
    ensures Rounds(Next(s, e))
  {
    assert |s.executed| + |s.batch| + |s.pending| == |s.queued|;
  }

  lemma {:induction false} OrderRun(s: Loop, es: seq<Event>)
    requires InOrder(s) && Rounds(s) && CanRun(s, es)
    ensures InOrder(Exec(s, es)) && Rounds(Exec(s, es))
    decreases |es|
  {
    if es == [] {
    } else {
      hide InOrder, Rounds, Next, Enabled;
      OrderPreserved(s, es[0]);
      RoundsPreserved(s, es[0]);
      OrderRun(Next(s, es[0]), es[1..]);
    }
  }

  /** Over every run: functors execute in lock order, none twice and none skipped, each in
      the round after the one it was queued in; so a functor that re-posts itself while it
      runs is executed in a later batch. */
  lemma FunctorsRunInOrder(pending: seq<Functor>, counter: nat, posters: set<Thread>, es: seq<Event>)
    requires CanRun(Entry(pending, counter, posters), es)
    ensures var s := Exec(Entry(pending, counter, posters), es);
            && s.executed <= s.queued
            && s.executed + s.batch + s.pending == s.queued
            && Rounds(s)
  {
    var s0 := Entry(pending, counter, posters);
    assert InOrder(s0);
    OrderRun(s0, es);
    var s := Exec(s0, es);
    assert s.queued[..|s.executed|] == s.executed;
  }

  // ----- the code of one thread is a run -----

  lemma OneMore(s: Loop, e: Event, es: seq<Event>)
    requires Enabled(s, e) && CanRun(Next(s, e), es)
    ensures CanRun(s, [e] + es) && Exec(s, [e] + es) == Exec(Next(s, e), es)
  {
    hide Enabled, Next;
    assert ([e] + es)[1..] == es;
  }

  lemma {:induction false} RunOn(s: Loop, a: seq<Event>, b: seq<Event>)
    requires CanRun(s, a) && CanRun(Exec(s, a), b)
    ensures CanRun(s, a + b) && Exec(s, a + b) == Exec(Exec(s, a), b)
    decreases |a|
  {
    hide Enabled, Next;
    if a == [] {
      assert a + b == b;
    } else {
      assert (a + b)[1..] == a[1..] + b;
      RunOn(Next(s, a[0]), a[1..], b);
    }
  }

  /** In the functors' half of a round, with nothing half posted. */
  predicate RunningAtRest(s: Loop) {
    s.pc == Running && !s.midPost
  }

  lemma {:induction false} PostsAll(s: Loop, fs: seq<Functor>) returns (es: seq<Event>)
    requires RunningAtRest(s)
    ensures CanRun(s, es)
    ensures var t := Exec(s, es);
            && RunningAtRest(t) && t.batch == s.batch && t.executed == s.executed
            && t.pending == s.pending + fs && t.counter == s.counter + |fs|
    decreases |fs|
  {
    if fs == [] {
      es := [];
    } else {
      var s1 := Next(s, LoopPost(fs[0]));
      var s2 := Next(s1, LoopWrite);
      assert s2.pending + fs[1..] == s.pending + fs;
      hide Enabled, Next;
      var rest := PostsAll(s2, fs[1..]);
      OneMore(s1, LoopWrite, rest);
      OneMore(s, LoopPost(fs[0]), [LoopWrite] + rest);
      es := [LoopPost(fs[0])] + ([LoopWrite] + rest);
    }
  }

  lemma {:induction false} RunsBatch(s: Loop, queues: Functor -> seq<Functor>) returns (es: seq<Event>)
    requires RunningAtRest(s)
    ensures CanRun(s, es)
    ensures var t := Exec(s, es);
            && RunningAtRest(t) && t.batch == [] && t.executed == s.executed + s.batch
            && t.pending == s.pending + Reposts(s.batch, queues)
            && t.counter == s.counter + |Reposts(s.batch, queues)|
    decreases |s.batch|
  {
    if s.batch == [] {
      es := [];
    } else {
      var f := s.batch[0];
      var later := Reposts(s.batch[1..], queues);
      assert Reposts(s.batch, queues) == queues(f) + later;
      assert s.pending + queues(f) + later == s.pending + (queues(f) + later);
      assert s.executed + [f] + s.batch[1..] == s.executed + s.batch;
      var s1 := Next(s, RunNext);
      assert RunningAtRest(s1) && s1.batch == s.batch[1..] && s1.executed == s.executed + [f];
      assert s1.pending == s.pending && s1.counter == s.counter;
      hide Enabled, Next, CanRun, Exec, Reposts;
      var posts := PostsAll(s1, queues(f));
      var rest := RunsBatch(Exec(s1, posts), queues);
      RunOn(s1, posts, rest);
      es := [RunNext] + (posts + rest);
      OneMore(s, RunNext, posts + rest);
    }
  }

  /** What DoPendingFunctors promises is what the loop's own steps can do from the swap to the
      end of the batch, when no other thread comes between. */
  lemma RoundIsARun(s: Loop, queues: Functor -> seq<Functor>) returns (es: seq<Event>)
    requires s.pc == Dispatching(false) && !s.midPost
    ensures CanRun(s, es)
    ensures var t := Exec(s, es);
            && t.pc == Checking && t.executed == s.executed + s.pending
            && t.pending == Reposts(s.pending, queues) && t.counter == s.counter + |t.pending|
  {
    var s1 := Next(s, Swap);
    var batch := RunsBatch(s1, queues);
    var s2 := Exec(s1, batch);
    var s3 := Next(s2, EndBatch);
    assert CanRun(s3, []) && Exec(s3, []) == s3;
    assert [] + Reposts(s.pending, queues) == Reposts(s.pending, queues);
    hide Enabled, Next, CanRun, Exec;
    OneMore(s2, EndBatch, []);
    RunOn(s1, batch, [EndBatch] + []);
    OneMore(s, Swap, batch + ([EndBatch] + []));
    es := [Swap] + (batch + ([EndBatch] + []));
  }

  // ----- leaving the loop -----

  /** Without a call of quit, no run leaves the loop; epoll_wait interrupted by a signal does
      not either. */
  lemma {:induction false} LeavesOnlyAfterQuit(s: Loop, es: seq<Event>)
    requires CanRun(s, es) && !s.quit && s.pc != Exited
    requires forall i :: 0 <= i < |es| ==> !es[i].Quit? && !es[i].LoopQuit?
    ensures !Exec(s, es).quit && Exec(s, es).pc != Exited
    decreases |es|
  {
    if es == [] {
    } else {
      assert !es[0].Quit? && !es[0].LoopQuit?;
      LeavesOnlyAfterQuit(Next(s, es[0]), es[1..]);
    }
  }

  /** After a call of quit the flag stays, and the loop leaves at its next check, which is also
      where an interrupted epoll_wait leads. */
  lemma QuitIsSeen(s: Loop)
    requires s.quit
    ensures s.pc == Checking ==> Next(s, Check).pc == Exited
    ensures s.pc == Waiting ==> Enabled(Next(s, Interrupted), Check) && Next(Next(s, Interrupted), Check).pc == Exited
    ensures forall e :: Enabled(s, e) ==> Next(s, e).quit
  {
  }

  /** Until it has left, the loop thread always has a step: nothing it waits for is lacking. */
  lemma LoopThreadHasAStep(s: Loop)
    requires s.pc != Exited
    ensures exists e :: Enabled(s, e) && !e.Post? && !e.Write? && !e.Quit? && !e.QuitWrite?
  {
    var e :=
      if s.midPost then LoopWrite
      else match s.pc
        case Checking => Check
        case Waiting => Interrupted
        case Dispatching(reported) => if reported then ReadWakeup else Swap
        case Running => if s.batch == [] then EndBatch else RunNext
        case Exited => Check;
    assert Enabled(s, e);
  }
}
