/**
 Any number of producers and one draining consumer around the queue of util/mpsc_queue.h,
 interleaved at every lock and every atomic: push is three sections (locked insert, then
 either fetch_add or compare-and-swap), and do_drain_and_send of log_sender/log_sender.cpp
 is take_dropped, the locked removal, the flag store before the unlock, and the hand-over
 to send_batch.
 */
module LogProtocol {
  import opened History
  import opened MpscQueue

  type Thread = nat

  /** An entry of a batch: a queued message, or the synthetic line that reports n losses. */
  datatype Item<T> = Message(value: T) | LossReport(n: nat)

  /** Where the consumer stands inside do_drain_and_send. */
  datatype Drainer<T> =
    | Idle
    | Counted(n: nat)                  // take_dropped returned n
    | Locked(batch: seq<Item<T>>)      // elements removed, mutex still held
    | Holding(batch: seq<Item<T>>)     // about to call send_batch

  /** The two edges of the flag: a push that returned wake_up, a drain that left nothing. */
  datatype Edge = Wake | Emptied

  datatype State<T> = State(
    q: Queue<T>,
    raising: set<Thread>,        // accepted pushes between the unlock and the CAS
    counting: set<Thread>,       // refused pushes between the unlock and the fetch_add
    drainer: Drainer<T>,
    accepted: seq<T>,            // history: accepted pushes in lock order
    failed: nat,                 // history: refused pushes
    handed: seq<Item<T>>,        // history: what send_batch received
    edges: seq<Edge>)            // history: flag edges in order

  datatype Event<T> =
    | PushSection(t: Thread, v: T)
    | PushRaise(t: Thread)
    | PushCount(t: Thread)
    | TakeDropped
    | DrainRemove(max: nat)
    | DrainSettle
    | HandOver

  function Init<T>(cap: nat): State<T> {
    State(Queue(cap, [], 0, false), {}, {}, Idle, [], 0, [], [])
  }

  predicate Enabled<T>(s: State<T>, e: Event<T>) {
    match e
    case PushSection(t, _) => t !in s.raising && t !in s.counting && !s.drainer.Locked?
    case PushRaise(t) => t in s.raising
    case PushCount(t) => t in s.counting
    case TakeDropped => s.drainer.Idle?
    case DrainRemove(_) => s.drainer.Counted?
    case DrainSettle => s.drainer.Locked?
    case HandOver => s.drainer.Holding?
  }

  function Report<T>(n: nat): seq<Item<T>> {
    if n > 0 then [LossReport(n)] else []
  }

  function AsMessages<T>(values: seq<T>): (r: seq<Item<T>>)
    ensures |r| == |values| && forall i :: 0 <= i < |values| ==> r[i] == Message(values[i])
  {
    seq(|values|, i requires 0 <= i < |values| => Message(values[i]))
  }

  function Next<T>(s: State<T>, e: Event<T>): State<T>
    requires Enabled(s, e)
  {
    match e
    case PushSection(t, v) =>
      if Full(s.q) then s.(counting := s.counting + {t}, failed := s.failed + 1)
      else s.(q := Offer(s.q, v), raising := s.raising + {t}, accepted := s.accepted + [v])
    case PushRaise(t) =>
      s.(q := Raise(s.q), raising := s.raising - {t}, edges := if s.q.pending then s.edges else s.edges + [Wake])
    case PushCount(t) => s.(q := CountDrop(s.q), counting := s.counting - {t})
    case TakeDropped => s.(q := ClearDropped(s.q), drainer := Counted(s.q.dropped))
    case DrainRemove(max) =>
      if max == 0 then s.(drainer := Holding(Report(s.drainer.n)))   // returns before it locks
      else s.(q := Remove(s.q, max),
              drainer := Locked(Report(s.drainer.n) + AsMessages(s.q.items[..TakenBy(s.q, max)])))
    case DrainSettle =>
      s.(q := Settle(s.q), drainer := Holding(s.drainer.batch),
         edges := if s.q.items == [] then s.edges + [Emptied] else s.edges)
    case HandOver => s.(drainer := Idle, handed := s.handed + s.drainer.batch)
  }

  predicate CanRun<T>(s: State<T>, es: seq<Event<T>>)
    decreases |es|
  {
    es == [] || (Enabled(s, es[0]) && CanRun(Next(s, es[0]), es[1..]))
  }

  function Exec<T>(s: State<T>, es: seq<Event<T>>): State<T>
    requires CanRun(s, es)
    decreases |es|
  {
    if es == [] then s else Exec(Next(s, es[0]), es[1..])
  }

  // ----- the three properties -----

  function Batch<T>(d: Drainer<T>): seq<Item<T>> {
    match d
    case Idle => []
    case Counted(n) => Report(n)
    case Locked(b) => b
    case Holding(b) => b
  }

  function Values<T>(items: seq<Item<T>>): seq<T> {
    if items == [] then []
    else (if items[0].Message? then [items[0].value] else []) + Values(items[1..])
  }

  function Losses<T>(items: seq<Item<T>>): nat {
    if items == [] then 0
    else (if items[0].LossReport? then items[0].n else 0) + Losses(items[1..])
  }

  /** A non-empty queue has its flag up, or a producer on its way to raise it. */
  ghost predicate NoLostWakeup<T>(s: State<T>) {
    s.q.items != [] ==> s.q.pending || s.raising != {}
  }

  /** Two wake-ups are separated by a drain that left the queue empty, and the flag is up
      exactly while the last edge is a wake-up that no such drain has answered yet. */
  ghost predicate EdgesAlternate<T>(s: State<T>) {
    Alternates(s.edges, Wake, Emptied, s.q.pending)
  }

  /** Messages handed on, messages in the batch at hand and messages in the ring are the
      accepted pushes in lock order; every refused push is reported, counted or about to be. */
  ghost predicate Conserved<T>(s: State<T>) {
    && Values(s.handed) + Values(Batch(s.drainer)) + s.q.items == s.accepted
    && s.failed == Losses(s.handed) + Losses(Batch(s.drainer)) + s.q.dropped + |s.counting|
  }

  ghost predicate Inv<T>(s: State<T>) {
    && |s.q.items| <= s.q.cap
    && s.raising !! s.counting
    && NoLostWakeup(s)
    && EdgesAlternate(s)
    && Conserved(s)
  }

  lemma {:induction false} ValuesSplit<T>(a: seq<Item<T>>, b: seq<Item<T>>)
    ensures Values(a + b) == Values(a) + Values(b)
  {
    if a == [] {
      assert a + b == b;
    } else {
      var head := if a[0].Message? then [a[0].value] else [];
      assert (a + b)[1..] == a[1..] + b;
      ValuesSplit(a[1..], b);
      assert head + (Values(a[1..]) + Values(b)) == head + Values(a[1..]) + Values(b);
    }
  }

  lemma {:induction false} LossesSplit<T>(a: seq<Item<T>>, b: seq<Item<T>>)
    ensures Losses(a + b) == Losses(a) + Losses(b)
  {
    if a == [] {
      assert a + b == b;
    } else {
      assert (a + b)[1..] == a[1..] + b;
      LossesSplit(a[1..], b);
    }
  }

  lemma {:induction false} ValuesOfMessages<T>(values: seq<T>)
    ensures Values(AsMessages(values)) == values
    ensures Losses(AsMessages(values)) == 0
  {
    if values == [] {
    } else {
      assert AsMessages(values)[1..] == AsMessages(values[1..]);
      ValuesOfMessages(values[1..]);
    }
  }

  lemma ValuesOfReport<T>(n: nat)
    ensures Values(Report<T>(n)) == [] && Losses(Report<T>(n)) == n
  {
  }

  lemma ConservedPush<T>(s: State<T>, t: Thread, v: T)
    requires Conserved(s) && Enabled(s, PushSection(t, v))
    ensures Conserved(Next(s, PushSection(t, v)))
  {
    hide Values, Losses;
  }

  lemma ConservedRemove<T>(s: State<T>, max: nat)
    requires Conserved(s) && Enabled(s, DrainRemove(max))
    ensures Conserved(Next(s, DrainRemove(max)))
  {
    hide Values, Losses, Report, AsMessages;
    if max > 0 {
      var k, report := TakenBy(s.q, max), Report<T>(s.drainer.n);
      var taken, left := s.q.items[..k], s.q.items[k..];
      ValuesOfMessages(taken);
      ValuesSplit(report, AsMessages(taken));
      LossesSplit(report, AsMessages(taken));
      assert taken + left == s.q.items;
      assert Values(s.handed) + (Values(report) + taken) + left
          == Values(s.handed) + Values(report) + (taken + left);
    }
  }

  lemma ConservedHandOver<T>(s: State<T>)
    requires Conserved(s) && Enabled(s, HandOver)
    ensures Conserved(Next(s, HandOver))
  {
    ValuesSplit(s.handed, s.drainer.batch);
    LossesSplit(s.handed, s.drainer.batch);
  }

  lemma ConservedStep<T>(s: State<T>, e: Event<T>)
    requires Conserved(s) && Enabled(s, e)
    ensures Conserved(Next(s, e))
  {
    match e
    case PushSection(t, v) => ConservedPush(s, t, v);
    case PushRaise(_) =>
    case PushCount(t) => assert s.counting == (s.counting - {t}) + {t};
    case TakeDropped => ValuesOfReport<T>(s.q.dropped);
    case DrainRemove(max) => ConservedRemove(s, max);
    case DrainSettle =>
    case HandOver => ConservedHandOver(s);
  }

  lemma Preserved<T>(s: State<T>, e: Event<T>)
    requires Inv(s) && Enabled(s, e)
    ensures Inv(Next(s, e))
  {
    hide Conserved, Alternates;
    if e.PushRaise? && !s.q.pending {
      UpEdge(s.edges, Wake, Emptied);
    } else if e.DrainSettle? && s.q.items == [] {
      DownEdge(s.edges, Wake, Emptied, s.q.pending);
    }
    ConservedStep(s, e);
  }

  /** Every interleaving of producers and consumer, of any length, keeps all of it. */
  lemma {:induction false} EveryRun<T>(cap: nat, es: seq<Event<T>>)
    requires CanRun(Init<T>(cap), es)
    ensures Inv(Exec(Init<T>(cap), es))
  {
    hide Inv, CanRun, Exec;
    Initially<T>(cap);
    RunFrom(Init<T>(cap), es);
  }

  lemma Initially<T>(cap: nat)
    ensures Inv(Init<T>(cap))
  {
  }

  lemma {:induction false} RunFrom<T>(s: State<T>, es: seq<Event<T>>)
    requires Inv(s) && CanRun(s, es)
    ensures Inv(Exec(s, es))
    decreases |es|
  {
    if es == [] {
    } else {
      hide Inv, Next, Enabled;
      Preserved(s, es[0]);
      RunFrom(Next(s, es[0]), es[1..]);
    }
  }

  lemma OneMore<T>(s: State<T>, e: Event<T>, es: seq<Event<T>>)
    requires Enabled(s, e) && CanRun(Next(s, e), es)
    ensures CanRun(s, [e] + es) && Exec(s, [e] + es) == Exec(Next(s, e), es)
  {
    hide Enabled, Next;
    assert ([e] + es)[1..] == es;
  }
}
