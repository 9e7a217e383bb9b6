/**
 Whole runs of the timer queue of src/timer_queue.cpp: other threads issue ids and post
 their adds and cancels to the loop, the loop thread adds and cancels at once (also from
 inside timer callbacks, between two firings of one batch), the clock moves, the kernel
 timer goes off, and handle_read extracts, fires and re-arms.
 */
module TimerRuns {
  import opened TimerQueue

  datatype Posted = PostedAdd(e: Entry) | PostedCancel(id: TimerId)

  datatype Shot = Shot(e: Entry, at: Time, batch: nat)

  /** Where an issued id stands; kept as history and tied to the containers by `Located`. */
  datatype Place = Issuing | Queued | Live | Cancelled | Extracted | Done

  datatype State = State(
    ts: Timers,
    now: Time,
    reading: bool,                 // inside handle_read, between extraction and re-arming
    rest: seq<Entry>,              // extracted and not fired yet
    issuing: set<Entry>,           // ids taken by other threads, functor not queued yet
    posted: seq<Posted>,           // functors waiting for the loop, in lock order
    batch: nat,
    shots: seq<Shot>,              // history: every callback run, in order
    place: map<TimerId, Place>)    // history: one place per issued id

  datatype Event =
    | Advance(dt: nat)
    | GoOff                        // the kernel timer reaches its time
    | Issue(expiration: Time)      // another thread: fetch_add of next_id_
    | PostAdd(e: Entry)            // another thread: queue_in_loop of the add
    | PostCancel(id: TimerId)      // another thread: queue_in_loop of a cancel
    | RunPosted                    // the loop runs the oldest posted functor
    | LocalAdd(expiration: Time)   // run_at on the loop thread, also inside a callback
    | LocalCancel(id: TimerId)     // cancel on the loop thread, also inside a callback
    | BeginRead
    | FireNext
    | EndRead

  function Init(now: Time): (r: State)
    ensures Inv(r)
  {
    State(Timers([], map[], Disarmed, 1), now, false, [], {}, [], 0, [], map[])
  }

  predicate Enabled(s: State, e: Event) {
    match e
    case Advance(_) => true
    case GoOff => s.ts.fd.Armed? && s.ts.fd.at <= s.now
    case Issue(_) => true
    case PostAdd(x) => x in s.issuing
    case PostCancel(_) => true
    case RunPosted => !s.reading && s.posted != []
    case LocalAdd(_) => true
    case LocalCancel(_) => true
    case BeginRead => !s.reading
    case FireNext => s.reading && s.rest != []
    case EndRead => s.reading && s.rest == []
  }

  function Added(s: State, x: Entry): State
    requires Sorted(s.ts.entries)
  {
    s.(ts := Add(s.ts, x, s.now), place := s.place[x.id := Live])
  }

  function CancelledBy(s: State, id: TimerId): State
    requires Sorted(s.ts.entries)
  {
    s.(ts := Cancel(s.ts, id, s.now), place := if id in s.ts.index then s.place[id := Cancelled] else s.place)
  }

  function Next(s: State, e: Event): State
    requires Sorted(s.ts.entries) && Enabled(s, e)
  {
    match e
    case Advance(dt) => s.(now := s.now + dt)
    case GoOff => s.(ts := s.ts.(fd := Fired))
    case Issue(expiration) =>
      s.(ts := s.ts.(nextId := s.ts.nextId + 1), issuing := s.issuing + {Entry(expiration, s.ts.nextId)},
         place := s.place[s.ts.nextId := Issuing])
    case PostAdd(x) =>
      s.(issuing := s.issuing - {x}, posted := s.posted + [PostedAdd(x)], place := s.place[x.id := Queued])
    case PostCancel(id) => s.(posted := s.posted + [PostedCancel(id)])
    case RunPosted =>
      var t := s.(posted := s.posted[1..]);
      (match s.posted[0]
       case PostedAdd(x) => Added(t, x)
       case PostedCancel(id) => CancelledBy(t, id))
    case LocalAdd(expiration) =>
      Added(s.(ts := s.ts.(nextId := s.ts.nextId + 1)), Entry(expiration, s.ts.nextId))
    case LocalCancel(id) => CancelledBy(s, id)
    case BeginRead =>
      var due := Due(s.ts, s.now);
      s.(ts := Extract(s.ts, s.now), reading := true, rest := due, batch := s.batch + 1,
         place := map id | id in s.place :: if id in IdsOf(due) then Extracted else s.place[id])
    case FireNext =>
      var x := s.rest[0];
      s.(rest := s.rest[1..], shots := s.shots + [Shot(x, s.now, s.batch)],
         place := s.place[x.id := Done])
    case EndRead => s.(ts := Rearm(s.ts, s.now), reading := false)
  }

  // ----- every id is in exactly one place -----

  function EntryIds(xs: set<Entry>): set<TimerId> {
    set x | x in xs :: x.id
  }

  function QueuedIds(ps: seq<Posted>): set<TimerId> {
    set p | p in ps && p.PostedAdd? :: p.e.id
  }

  function ShotIds(shots: seq<Shot>): set<TimerId> {
    set x | x in shots :: x.e.id
  }

  ghost predicate Holds(ids: set<TimerId>, place: map<TimerId, Place>, p: Place) {
    forall id :: id in ids <==> id in place && place[id] == p
  }

  /** Every issued id has one place, and the container of that place, and no other, holds
      it.  (A cancelled id is in none.) */
  ghost predicate Located(s: State) {
    && (forall id :: id in s.place <==> 1 <= id < s.ts.nextId)
    && Holds(EntryIds(s.issuing), s.place, Issuing)
    && Holds(QueuedIds(s.posted), s.place, Queued)
    && Holds(s.ts.index.Keys, s.place, Live)
    && Holds(IdsOf(s.rest), s.place, Extracted)
    && Holds(ShotIds(s.shots), s.place, Done)
  }

  /** No container holds an id twice. */
  ghost predicate Distinct(s: State) {
    && (forall x, y :: x in s.issuing && y in s.issuing && x.id == y.id ==> x == y)
    && PostedOnce(s.posted)
    && (forall i, j :: 0 <= i < j < |s.rest| ==> s.rest[i].id != s.rest[j].id)
    && ShotOnce(s.shots)
  }

  ghost predicate PostedOnce(posted: seq<Posted>) {
    forall i, j :: 0 <= i < j < |posted| && posted[i].PostedAdd? && posted[j].PostedAdd? ==>
      posted[i].e.id != posted[j].e.id
  }

  ghost predicate ShotOnce(shots: seq<Shot>) {
    forall i, j :: 0 <= i < j < |shots| ==> shots[i].e.id != shots[j].e.id
  }

  // ----- when and in what order timers fire -----

  ghost predicate Punctual(s: State) {
    && (forall i :: 0 <= i < |s.shots| ==> s.shots[i].e.expiration <= s.shots[i].at <= s.now)
    && (forall i :: 0 <= i < |s.rest| ==> s.rest[i].expiration <= s.now)
  }

  /** The shots of one batch are in (expiration, id) order, and what is left of it comes after. */
  ghost predicate BatchOrder(s: State) {
    && Sorted(s.rest)
    && (forall i :: 0 <= i < |s.shots| ==> s.shots[i].batch <= s.batch)
    && (forall i, j :: 0 <= i < j < |s.shots| && s.shots[i].batch == s.shots[j].batch ==>
          Before(s.shots[i].e, s.shots[j].e))
    && (forall i, j :: 0 <= i < |s.shots| && 0 <= j < |s.rest| && s.shots[i].batch == s.batch ==>
          Before(s.shots[i].e, s.rest[j]))
  }

  ghost predicate Structures(s: State) {
    Consistent(s.ts) && 1 <= s.ts.nextId && (!s.reading ==> ArmedForEarliest(s.ts) && s.rest == [])
  }

  ghost predicate Inv(s: State) {
    Structures(s) && Located(s) && Distinct(s) && Punctual(s) && BatchOrder(s)
  }

  function LiveAfter(s: State, e: Event): set<TimerId>
    requires Enabled(s, e)
  {
    match e
    case RunPosted =>
      if s.posted[0].PostedAdd? then s.ts.index.Keys + {s.posted[0].e.id} else s.ts.index.Keys - {s.posted[0].id}
    case LocalAdd(_) => s.ts.index.Keys + {s.ts.nextId}
    case LocalCancel(id) => s.ts.index.Keys - {id}
    case BeginRead => s.ts.index.Keys - IdsOf(Due(s.ts, s.now))
    case _ => s.ts.index.Keys
  }

  lemma FdChange(ts: Timers, fd: TimerFd)
    requires Consistent(ts)
    ensures Consistent(ts.(fd := fd))
    ensures ArmedForEarliest(ts.(fd := Fired))
  {
  }

  lemma RearmKeeps(ts: Timers, now: Time)
    requires Consistent(ts)
    ensures Consistent(Rearm(ts, now)) && ArmedForEarliest(Rearm(ts, now)) && Rearm(ts, now).index == ts.index
    ensures Rearm(ts, now).nextId == ts.nextId
  {
  }

  lemma PostedIsNew(s: State)
    requires Located(s) && s.posted != [] && s.posted[0].PostedAdd?
    ensures s.posted[0].e.id !in s.ts.index && 1 <= s.posted[0].e.id < s.ts.nextId
  {
    assert s.posted[0] in s.posted;
    assert s.posted[0].e.id in QueuedIds(s.posted);
  }

  lemma StructuresStep(s: State, e: Event)
    requires Structures(s) && Located(s) && Enabled(s, e)
    ensures Structures(Next(s, e))
    ensures Next(s, e).ts.index.Keys == LiveAfter(s, e)
    ensures Next(s, e).ts.nextId == s.ts.nextId + if e.Issue? || e.LocalAdd? then 1 else 0
  {
    hide Located, Consistent, ArmedForEarliest, Add, Cancel, Extract, Due, Rearm;
    match e
    case RunPosted =>
      match s.posted[0] {
        case PostedAdd(x) =>
          PostedIsNew(s);
          AddKeeps(s.ts, x, s.now);
        case PostedCancel(id) => CancelKeeps(s.ts, id, s.now);
      }
    case Issue(_) => UnusedId(s.ts);
    case LocalAdd(expiration) =>
      UnusedId(s.ts);
      AddKeeps(s.ts.(nextId := s.ts.nextId + 1), Entry(expiration, s.ts.nextId), s.now);
    case LocalCancel(id) => CancelKeeps(s.ts, id, s.now);
    case GoOff => FdChange(s.ts, Fired);
    case BeginRead => ExtractKeeps(s.ts, s.now);
    case EndRead => RearmKeeps(s.ts, s.now);
    case _ =>
  }

  /** What handle_read extracts: live entries, each once, in order and due. */
  lemma DueFacts(s: State)
    requires Structures(s)
    ensures var due := Due(s.ts, s.now);
            && Sorted(due)
            && (forall i :: 0 <= i < |due| ==> due[i].id in s.ts.index && due[i].expiration <= s.now)
            && (forall i, j :: 0 <= i < j < |due| ==> due[i].id != due[j].id)
            && (forall id :: id in IdsOf(due) <==> exists i :: 0 <= i < |due| && due[i].id == id)
  {
    var due := Due(s.ts, s.now);
    hide Due, Extract;
    ExtractKeeps(s.ts, s.now);
    forall i | 0 <= i < |due|
      ensures due[i] in s.ts.entries
    {
      assert due[i] in due;
    }
  }

  lemma IssuingIds(xs: set<Entry>, x: Entry)
    ensures EntryIds(xs + {x}) == EntryIds(xs) + {x.id}
    ensures x in xs && (forall y :: y in xs && y.id == x.id ==> y == x) ==>
            x.id in EntryIds(xs) && EntryIds(xs - {x}) == EntryIds(xs) - {x.id}
  {
  }

  lemma QueuedIdsSnoc(ps: seq<Posted>, p: Posted)
    ensures QueuedIds(ps + [p]) == if p.PostedAdd? then QueuedIds(ps) + {p.e.id} else QueuedIds(ps)
  {
    assert forall x :: x in ps + [p] <==> x in ps || x == p;
  }

  lemma QueuedIdsTail(s: State)
    requires Distinct(s) && s.posted != []
    ensures var p := s.posted[0];
            QueuedIds(s.posted) == if p.PostedAdd? then QueuedIds(s.posted[1..]) + {p.e.id} else QueuedIds(s.posted[1..])
    ensures s.posted[0].PostedAdd? ==> s.posted[0].e.id !in QueuedIds(s.posted[1..])
  {
    assert forall x :: x in s.posted <==> x == s.posted[0] || x in s.posted[1..];
  }

  lemma RestIdsTail(s: State)
    requires Distinct(s) && s.rest != []
    ensures IdsOf(s.rest) == IdsOf(s.rest[1..]) + {s.rest[0].id}
    ensures s.rest[0].id !in IdsOf(s.rest[1..])
  {
    assert forall x :: x in s.rest <==> x == s.rest[0] || x in s.rest[1..];
  }

  lemma ShotIdsSnoc(shots: seq<Shot>, x: Shot)
    ensures ShotIds(shots + [x]) == ShotIds(shots) + {x.e.id}
  {
    assert forall y :: y in shots + [x] <==> y in shots || y == x;
  }

  /** Moving one id to place q moves it into the container of q and out of every other. */
  lemma Moved(s: State, t: State, id: TimerId, q: Place)
    requires Located(s) && t.place == s.place[id := q]
    requires 1 <= id < t.ts.nextId
    requires t.ts.nextId == s.ts.nextId || (id == s.ts.nextId && t.ts.nextId == id + 1)
    requires EntryIds(t.issuing) == if q == Issuing then EntryIds(s.issuing) + {id} else EntryIds(s.issuing) - {id}
    requires QueuedIds(t.posted) == if q == Queued then QueuedIds(s.posted) + {id} else QueuedIds(s.posted) - {id}
    requires t.ts.index.Keys == if q == Live then s.ts.index.Keys + {id} else s.ts.index.Keys - {id}
    requires IdsOf(t.rest) == if q == Extracted then IdsOf(s.rest) + {id} else IdsOf(s.rest) - {id}
    requires ShotIds(t.shots) == if q == Done then ShotIds(s.shots) + {id} else ShotIds(s.shots) - {id}
    ensures Located(t)
  {
    hide EntryIds, QueuedIds, IdsOf, ShotIds;
    HoldsMoved(EntryIds(s.issuing), s.place, Issuing, id, q);
    HoldsMoved(QueuedIds(s.posted), s.place, Queued, id, q);
    HoldsMoved(s.ts.index.Keys, s.place, Live, id, q);
    HoldsMoved(IdsOf(s.rest), s.place, Extracted, id, q);
    HoldsMoved(ShotIds(s.shots), s.place, Done, id, q);
    hide Holds;
  }

  lemma HoldsMoved(ids: set<TimerId>, place: map<TimerId, Place>, p: Place, id: TimerId, q: Place)
    requires Holds(ids, place, p)
    ensures Holds(if q == p then ids + {id} else ids - {id}, place[id := q], p)
  {
  }

  /** An id that some other container holds, or that is not issued yet, is not in this one. */
  lemma Elsewhere(s: State, id: TimerId)
    requires Located(s)
    ensures id in s.place ==> 1 <= id < s.ts.nextId
    ensures id !in s.place || s.place[id] != Issuing ==> EntryIds(s.issuing) - {id} == EntryIds(s.issuing)
    ensures id !in s.place || s.place[id] != Queued ==> QueuedIds(s.posted) - {id} == QueuedIds(s.posted)
    ensures id !in s.place || s.place[id] != Live ==> s.ts.index.Keys - {id} == s.ts.index.Keys
    ensures id !in s.place || s.place[id] != Extracted ==> IdsOf(s.rest) - {id} == IdsOf(s.rest)
    ensures id !in s.place || s.place[id] != Done ==> ShotIds(s.shots) - {id} == ShotIds(s.shots)
    ensures id in EntryIds(s.issuing) ==> id in s.place && s.place[id] == Issuing
    ensures id in QueuedIds(s.posted) ==> id in s.place && s.place[id] == Queued
    ensures id in s.ts.index ==> id in s.place && s.place[id] == Live
    ensures id in IdsOf(s.rest) ==> id in s.place && s.place[id] == Extracted
    ensures id in s.place <==> 1 <= id < s.ts.nextId
  {
    hide EntryIds, QueuedIds, IdsOf, ShotIds;
  }

  lemma LocatedElsewhere(s: State, e: Event)
    requires Structures(s) && Located(s) && Distinct(s) && Enabled(s, e)
    requires e.Issue? || e.PostAdd? || e.PostCancel?
    ensures Located(Next(s, e))
  {
    StructuresStep(s, e);
    var t := Next(s, e);
    hide Structures, Consistent, Sorted, Add, Cancel, Extract, Due, Rearm, IdsOf, EntryIds, QueuedIds, ShotIds, Distinct, Holds;
    match e
    case Issue(expiration) =>
      IssuingIds(s.issuing, Entry(expiration, s.ts.nextId));
      Elsewhere(s, s.ts.nextId);
      Moved(s, t, s.ts.nextId, Issuing);
    case PostAdd(x) =>
      SameIssuer(s, x);
      IssuingIds(s.issuing, x);
      QueuedIdsSnoc(s.posted, PostedAdd(x));
      Elsewhere(s, x.id);
      Moved(s, t, x.id, Queued);
    case PostCancel(id) => QueuedIdsSnoc(s.posted, PostedCancel(id));
  }

  lemma LocatedOnLoop(s: State, e: Event)
    requires Structures(s) && Located(s) && Distinct(s) && Enabled(s, e)
    requires !e.Issue? && !e.PostAdd? && !e.PostCancel? && !e.FireNext?
    requires !e.BeginRead? && !e.LocalCancel? && !(e.RunPosted? && s.posted[0].PostedCancel?)
    ensures Located(Next(s, e))
  {
    StructuresStep(s, e);
    var t := Next(s, e);
    hide Structures, Consistent, Sorted, Add, Cancel, Extract, Due, Rearm, IdsOf, EntryIds, QueuedIds, ShotIds, Distinct, Holds;
    match e
    case RunPosted =>
      QueuedIdsTail(s);
      Elsewhere(s, s.posted[0].e.id);
      Moved(s, t, s.posted[0].e.id, Live);
    case LocalAdd(expiration) =>
      Elsewhere(s, s.ts.nextId);
      Moved(s, t, s.ts.nextId, Live);
    case _ =>
  }

  lemma LocatedFire(s: State)
    requires Structures(s) && Located(s) && Distinct(s) && Enabled(s, FireNext)
    ensures Located(Next(s, FireNext))
  {
    RestIdsTail(s);
    hide Structures, Consistent, Sorted, IdsOf, EntryIds, QueuedIds, ShotIds, Distinct, Holds;
    var x := s.rest[0];
    ShotIdsSnoc(s.shots, Shot(x, s.now, s.batch));
    Elsewhere(s, x.id);
    Moved(s, Next(s, FireNext), x.id, Done);
  }

  lemma LocatedCancel(s: State, e: Event, id: TimerId)
    requires Structures(s) && Located(s) && Distinct(s) && Enabled(s, e)
    requires e == LocalCancel(id) || (e.RunPosted? && s.posted[0] == PostedCancel(id))
    ensures Located(Next(s, e))
  {
    StructuresStep(s, e);
    var t := Next(s, e);
    hide Structures, Consistent, Sorted, Add, Cancel, Extract, Due, Rearm, IdsOf, EntryIds, QueuedIds, ShotIds, Distinct, Holds;
    if e.RunPosted? {
      QueuedIdsTail(s);
    }
    Elsewhere(s, id);
    if id in s.ts.index {
      Moved(s, t, id, Cancelled);
    }
  }

  lemma LocatedBegin(s: State)
    requires Structures(s) && Located(s) && Enabled(s, BeginRead)
    ensures Located(Next(s, BeginRead))
  {
    StructuresStep(s, BeginRead);
    DueIdsLive(s);
    EmptyRest(s);
    hide Structures, Consistent, Sorted, Extract, Due, IdsOf, EntryIds, QueuedIds, ShotIds;
  }

  lemma DueIdsLive(s: State)
    requires Structures(s)
    ensures IdsOf(Due(s.ts, s.now)) <= s.ts.index.Keys
  {
    DueFacts(s);
  }

  lemma LocatedStep(s: State, e: Event)
    requires Structures(s) && Located(s) && Distinct(s) && Enabled(s, e)
    ensures Located(Next(s, e))
  {
    assert Sorted(s.ts.entries);
    hide Structures, Located, Distinct, Consistent, Next;
    if e.BeginRead? {
      LocatedBegin(s);
    } else if e.FireNext? {
      LocatedFire(s);
    } else if e.LocalCancel? {
      LocatedCancel(s, e, e.id);
    } else if e.RunPosted? && s.posted[0].PostedCancel? {
      LocatedCancel(s, e, s.posted[0].id);
    } else if e.Issue? || e.PostAdd? || e.PostCancel? {
      LocatedElsewhere(s, e);
    } else {
      LocatedOnLoop(s, e);
    }
  }

  lemma SameIssuer(s: State, x: Entry)
    requires Distinct(s) && x in s.issuing
    ensures forall y :: y in s.issuing && y.id == x.id ==> y == x
  {
  }

  lemma EmptyRest(s: State)
    requires Structures(s)
    ensures !s.reading ==> IdsOf(s.rest) == {}
  {
  }

  lemma PostedOnceMore(posted: seq<Posted>, p: Posted)
    requires PostedOnce(posted)
    requires p.PostedAdd? ==> forall i :: 0 <= i < |posted| && posted[i].PostedAdd? ==> posted[i].e.id != p.e.id
    ensures PostedOnce(posted + [p])
  {
  }

  lemma PostedOnceLess(posted: seq<Posted>)
    requires PostedOnce(posted) && posted != []
    ensures PostedOnce(posted[1..])
  {
  }

  lemma ShotOnceMore(shots: seq<Shot>, x: Shot)
    requires ShotOnce(shots) && forall i :: 0 <= i < |shots| ==> shots[i].e.id != x.e.id
    ensures ShotOnce(shots + [x])
  {
  }

  lemma DistinctStep(s: State, e: Event)
    requires Structures(s) && Located(s) && Distinct(s) && Enabled(s, e)
    ensures Distinct(Next(s, e))
  {
    assert Sorted(s.ts.entries);
    NewIds(s, e);
    DueFacts(s);
    hide Structures, Consistent, Sorted, Located, Add, Cancel, Extract, Due, Rearm, IdsOf, PostedOnce, ShotOnce;
    match e
    case PostAdd(x) => PostedOnceMore(s.posted, PostedAdd(x));
    case PostCancel(id) => PostedOnceMore(s.posted, PostedCancel(id));
    case RunPosted => PostedOnceLess(s.posted);
    case FireNext => ShotOnceMore(s.shots, Shot(s.rest[0], s.now, s.batch));
    case _ =>
  }

  /** Whatever enters a container is not in it yet. */
  lemma NewIds(s: State, e: Event)
    requires Located(s) && Enabled(s, e)
    ensures e.Issue? ==> forall x :: x in s.issuing ==> x.id != s.ts.nextId
    ensures e.PostAdd? ==> forall i :: 0 <= i < |s.posted| && s.posted[i].PostedAdd? ==> s.posted[i].e.id != e.e.id
    ensures e.FireNext? ==> forall i :: 0 <= i < |s.shots| ==> s.shots[i].e.id != s.rest[0].id
  {
    if e.Issue? {
      assert forall x :: x in s.issuing ==> x.id in EntryIds(s.issuing);
    } else if e.PostAdd? {
      assert e.e.id in EntryIds(s.issuing);
      assert forall i :: 0 <= i < |s.posted| && s.posted[i].PostedAdd? ==> s.posted[i].e.id in QueuedIds(s.posted);
    } else if e.FireNext? {
      assert s.rest[0].id in IdsOf(s.rest);
      assert forall i :: 0 <= i < |s.shots| ==> s.shots[i].e.id in ShotIds(s.shots);
    }
  }

  lemma PunctualStep(s: State, e: Event)
    requires Structures(s) && Punctual(s) && Enabled(s, e)
    ensures Punctual(Next(s, e))
  {
    DueFacts(s);
    assert Sorted(s.ts.entries);
    hide Structures, Consistent, Sorted, Add, Cancel, Extract, Due, Rearm, IdsOf;
  }

  lemma BatchOrderStep(s: State, e: Event)
    requires Structures(s) && BatchOrder(s) && Enabled(s, e)
    ensures BatchOrder(Next(s, e))
  {
    DueFacts(s);
    assert Sorted(s.ts.entries);
    if e.FireNext? {
      assert forall j :: 0 < j < |s.rest| ==> Before(s.rest[0], s.rest[j]);
      assert Sorted(s.rest[1..]);
    }
    hide Structures, Consistent, Sorted, Before, Add, Cancel, Extract, Due, Rearm, IdsOf;
  }

  lemma Preserved(s: State, e: Event)
    requires Inv(s) && Enabled(s, e)
    ensures Inv(Next(s, e))
  {
    StructuresStep(s, e);
    LocatedStep(s, e);
    DistinctStep(s, e);
    PunctualStep(s, e);
    BatchOrderStep(s, e);
  }

  ghost predicate CanRun(s: State, es: seq<Event>)
    requires Inv(s)
    decreases |es|
  {
    es == [] || (Enabled(s, es[0]) && (Preserved(s, es[0]); CanRun(Next(s, es[0]), es[1..])))
  }

  /** Every run keeps every property above. */
  ghost function Exec(s: State, es: seq<Event>): (r: State)
    requires Inv(s) && CanRun(s, es)
    ensures Inv(r)
    decreases |es|
  {
    if es == [] then s else (Preserved(s, es[0]); Exec(Next(s, es[0]), es[1..]))
  }

  /** Over every run: an id is in exactly one place, fires at most once and never early,
      each batch fires in (expiration, id) order, and whenever the loop is outside
      handle_read the kernel timer stands at the earliest entry. */
  lemma EveryRun(now: Time, es: seq<Event>)
    requires CanRun(Init(now), es)
    ensures var s := Exec(Init(now), es);
            && Located(s)
            && (forall i, j :: 0 <= i < j < |s.shots| ==> s.shots[i].e.id != s.shots[j].e.id)
            && (forall i :: 0 <= i < |s.shots| ==> s.shots[i].e.expiration <= s.shots[i].at)
            && (forall i, j :: 0 <= i < j < |s.shots| && s.shots[i].batch == s.shots[j].batch ==>
                  Before(s.shots[i].e, s.shots[j].e))
            && Consistent(s.ts)
            && (!s.reading ==> ArmedForEarliest(s.ts))
  {
    hide CanRun, Exec;
    assert Inv(Exec(Init(now), es));
  }

  /** A place that is final stays so: an id that was cancelled while its entry was in the
      ordered set never fires, and one that has fired never fires again. */
  lemma {:induction false} CancelledNeverFires(s: State, es: seq<Event>, id: TimerId)
    requires Inv(s) && CanRun(s, es)
    requires id in s.place && s.place[id] in {Cancelled, Done}
    ensures id in Exec(s, es).place && Exec(s, es).place[id] == s.place[id]
    ensures s.place[id] == Cancelled ==> forall i :: 0 <= i < |Exec(s, es).shots| ==> Exec(s, es).shots[i].e.id != id
    decreases |es|
  {
    if es == [] {
      assert forall i :: 0 <= i < |s.shots| ==> s.shots[i].e.id in ShotIds(s.shots);
    } else {
      Preserved(s, es[0]);
      FinalStep(s, es[0], id);
      CancelledNeverFires(Next(s, es[0]), es[1..], id);
    }
  }

  lemma FinalStep(s: State, e: Event, id: TimerId)
    requires Inv(s) && Enabled(s, e)
    requires id in s.place && s.place[id] in {Cancelled, Done}
    ensures id in Next(s, e).place && Next(s, e).place[id] == s.place[id]
  {
    assert e.PostAdd? ==> e.e.id in EntryIds(s.issuing);
    if e.RunPosted? && s.posted[0].PostedAdd? {
      assert s.posted[0] in s.posted;
      assert s.posted[0].e.id in QueuedIds(s.posted);
    }
    if e.FireNext? {
      assert s.rest[0].id in IdsOf(s.rest);
    }
    if e.BeginRead? {
      DueFacts(s);
    }
  }

  /** Once handle_read has taken a timer out, nothing stops it: by the time handle_read is over
      it has fired, whatever the callbacks before it cancelled. */
  lemma {:induction false} ExtractedFires(s: State, es: seq<Event>, id: TimerId)
    requires Inv(s) && CanRun(s, es) && At(s, id, Extracted)
    ensures var t := Exec(s, es);
            (At(t, id, Extracted) || At(t, id, Done)) && (!t.reading ==> id in ShotIds(t.shots))
    decreases |es|
  {
    if es == [] {
      assert id in IdsOf(s.rest);
    } else {
      Preserved(s, es[0]);
      ExtractedStep(s, es[0], id);
      var t := Next(s, es[0]);
      if At(t, id, Done) {
        CancelledNeverFires(t, es[1..], id);
        DoneHasFired(Exec(t, es[1..]), id);
      } else {
        ExtractedFires(t, es[1..], id);
      }
    }
  }

  lemma ExtractedStep(s: State, e: Event, id: TimerId)
    requires Inv(s) && Enabled(s, e) && At(s, id, Extracted)
    ensures At(Next(s, e), id, Extracted) || At(Next(s, e), id, Done)
  {
    assert id in IdsOf(s.rest) && id !in s.ts.index;
    assert e.PostAdd? ==> e.e.id in EntryIds(s.issuing);
  }

  // ----- exactly when a cancel works -----

  predicate Pending(p: Place) {
    p in {Issuing, Queued, Live, Extracted}
  }

  function Rank(p: Place): nat {
    match p
    case Issuing => 3
    case Queued => 2
    case Live => 1
    case _ => 0
  }

  /** How far the loop is from being outside handle_read. */
  function Busy(s: State): nat {
    if s.reading then 1 + |s.rest| else 0
  }

  /** How far a live timer is from being due with the kernel timer gone off. */
  function Late(s: State, id: TimerId): nat {
    if id in s.ts.index && s.ts.index[id].expiration > s.now then 3
    else match s.ts.fd
      case Fired => 0
      case Armed(at, _) => if at <= s.now then 1 else 2
      case Disarmed => 2
  }

  /** In this run handle_read is entered only after the kernel timer has gone off. */
  ghost predicate ReadsWhenFired(s: State, es: seq<Event>)
    requires Inv(s) && CanRun(s, es)
    decreases |es|
  {
    es == [] ||
    ((es[0].BeginRead? ==> s.ts.fd.Fired?) && (Preserved(s, es[0]); ReadsWhenFired(Next(s, es[0]), es[1..])))
  }

  predicate At(s: State, id: TimerId, p: Place) {
    id in s.place && s.place[id] == p
  }

  /** In t the loop is closer to firing the timer than in s. */
  ghost predicate Closer(s: State, t: State, id: TimerId)
    requires id in s.place && id in t.place
  {
    var r, q := Rank(s.place[id]), Rank(t.place[id]);
    || q < r
    || (q == r && |t.posted| < |s.posted|)
    || (q == r && |t.posted| == |s.posted| && Busy(t) < Busy(s))
    || (q == r && |t.posted| == |s.posted| && Busy(t) == Busy(s) && Late(t, id) < Late(s, id))
  }

  /** One step of handle_read that is not about this timer. */
  lemma FinishReading(s: State, id: TimerId) returns (e: Event)
    requires Inv(s) && s.reading && id in s.place && s.place[id] in {Queued, Live}
    ensures !e.BeginRead? && Enabled(s, e) && id in Next(s, e).place && Next(s, e).place[id] == s.place[id] && Closer(s, Next(s, e), id)
  {
    if s.rest == [] {
      e := EndRead;
    } else {
      e := FireNext;
      assert s.rest[0].id in IdsOf(s.rest);
    }
  }

  lemma StepIssuing(s: State, id: TimerId) returns (e: Event)
    requires Inv(s) && At(s, id, Issuing)
    ensures !e.BeginRead? && Enabled(s, e) && At(Next(s, e), id, Queued)
  {
    assert id in EntryIds(s.issuing);
    var x :| x in s.issuing && x.id == id;
    e := PostAdd(x);
  }

  lemma StepQueued(s: State, id: TimerId) returns (e: Event)
    requires Inv(s) && At(s, id, Queued) && !s.reading
    ensures !e.BeginRead? && Enabled(s, e)
    ensures At(Next(s, e), id, Live) || (At(Next(s, e), id, Queued) && |Next(s, e).posted| < |s.posted|)
  {
    e := RunPosted;
    assert id in QueuedIds(s.posted);
    assert id !in s.ts.index;
  }

  /** A live timer becomes due, the kernel timer then goes off, and handle_read takes it out. */
  lemma StepLive(s: State, id: TimerId) returns (e: Event)
    requires Inv(s) && At(s, id, Live) && !s.reading
    ensures Enabled(s, e) && (e.BeginRead? ==> s.ts.fd.Fired?)
    ensures At(Next(s, e), id, Extracted) || (At(Next(s, e), id, Live) && Closer(s, Next(s, e), id))
  {
    assert id in s.ts.index;
    var x := s.ts.index[id];
    assert x in s.ts.entries;
    if x.expiration > s.now {
      e := Advance(x.expiration - s.now);
    } else if s.ts.fd.Fired? {
      e := BeginRead;
      ExtractKeeps(s.ts, s.now);
      assert x in Due(s.ts, s.now);
      assert id in IdsOf(Due(s.ts, s.now));
    } else if s.ts.fd.at > s.now {
      e := Advance(s.ts.fd.at - s.now);
    } else {
      e := GoOff;
    }
  }

  lemma StepExtracted(s: State, id: TimerId)
    requires Inv(s) && At(s, id, Extracted)
    ensures Enabled(s, FireNext)
    ensures At(Next(s, FireNext), id, Done) || (At(Next(s, FireNext), id, Extracted) && Closer(s, Next(s, FireNext), id))
  {
    assert id in IdsOf(s.rest);
  }

  /** A timer that is pending somewhere can be brought to fire, through the kernel timer. */
  lemma {:induction false} CanFire(s: State, id: TimerId) returns (es: seq<Event>)
    requires Inv(s) && id in s.place && Pending(s.place[id])
    ensures CanRun(s, es) && ReadsWhenFired(s, es) && id in ShotIds(Exec(s, es).shots)
    decreases Rank(s.place[id]), |s.posted|, Busy(s), Late(s, id)
  {
    assert Sorted(s.ts.entries);
    hide Structures, Located, Distinct, Punctual, BatchOrder, Next, Enabled;
    var e: Event;
    match s.place[id] {
      case Issuing => e := StepIssuing(s, id);
      case Queued =>
        if s.reading { e := FinishReading(s, id); } else { e := StepQueued(s, id); }
      case Live =>
        if s.reading { e := FinishReading(s, id); } else { e := StepLive(s, id); }
      case Extracted =>
        StepExtracted(s, id);
        e := FireNext;
    }
    Preserved(s, e);
    var t := Next(s, e);
    var rest := [];
    if t.place[id] == Done {
      DoneHasFired(t, id);
    } else {
      rest := CanFire(t, id);
    }
    es := [e] + rest;
    assert es[1..] == rest;
  }

  lemma DoneHasFired(s: State, id: TimerId)
    requires Located(s) && At(s, id, Done)
    ensures id in ShotIds(s.shots)
  {
  }

  /** A cancel on the loop thread stops a timer that has not fired, in every continuation,
      exactly when its entry is in the ordered set at that moment (or it was cancelled
      before).  While its add is still on its way, and once handle_read holds it, there is a
      continuation in which it fires, through the kernel timer. */
  lemma CancelStopsIff(s: State, id: TimerId)
    requires Inv(s) && id in s.place && s.place[id] != Done
    ensures var t := Next(s, LocalCancel(id));
            && Inv(t)
            && (s.place[id] in {Live, Cancelled} ==>
                  forall es :: CanRun(t, es) ==> id !in ShotIds(Exec(t, es).shots))
            && (s.place[id] !in {Live, Cancelled} ==>
                  exists es :: CanRun(t, es) && ReadsWhenFired(t, es) && id in ShotIds(Exec(t, es).shots))
  {
    Preserved(s, LocalCancel(id));
    var t := Next(s, LocalCancel(id));
    CancelMoves(s, id);
    hide Structures, Located, Distinct, Punctual, BatchOrder, Next, Enabled, CanRun, Exec, ReadsWhenFired;
    if s.place[id] in {Live, Cancelled} {
      forall es | CanRun(t, es)
        ensures id !in ShotIds(Exec(t, es).shots)
      {
        CancelledNeverFires(t, es, id);
      }
    } else {
      var es := CanFire(t, id);
    }
  }

  lemma CancelMoves(s: State, id: TimerId)
    requires Inv(s) && id in s.place
    ensures var t := Next(s, LocalCancel(id));
            id in t.place && t.place[id] == if s.place[id] == Live then Cancelled else s.place[id]
  {
    assert id in s.ts.index <==> s.place[id] == Live;
  }

  // ----- runs in which a cancel does not work -----

  lemma {:induction false} RunSnoc(s: State, es: seq<Event>, e: Event)
    requires Inv(s) && CanRun(s, es) && Enabled(Exec(s, es), e)
    ensures CanRun(s, es + [e]) && Sorted(Exec(s, es).ts.entries) && Exec(s, es + [e]) == Next(Exec(s, es), e)
    ensures ReadsWhenFired(s, es) && (e.BeginRead? ==> Exec(s, es).ts.fd.Fired?) ==> ReadsWhenFired(s, es + [e])
    decreases |es|
  {
    assert Sorted(s.ts.entries);
    hide Inv, Enabled, Next, Sorted;
    if es == [] {
      assert es + [e] == [e] && [e][1..] == [];
      Preserved(s, e);
    } else {
      Preserved(s, es[0]);
      RunSnoc(Next(s, es[0]), es[1..], e);
      assert (es + [e])[1..] == es[1..] + [e] && (es + [e])[0] == es[0];
    }
  }

  lemma AddsLast(s: State, expiration: Time)
    requires Inv(s) && forall i :: 0 <= i < |s.ts.entries| ==> Before(s.ts.entries[i], Entry(expiration, s.ts.nextId))
    ensures var t := Next(s, LocalAdd(expiration));
            && t.ts.entries == s.ts.entries + [Entry(expiration, s.ts.nextId)] && t.ts.nextId == s.ts.nextId + 1
            && t.reading == s.reading && t.now == s.now && t.shots == s.shots
  {
    InsertLast(s.ts.entries, Entry(expiration, s.ts.nextId));
  }

  lemma {:induction false} InsertLast(entries: seq<Entry>, e: Entry)
    requires Sorted(entries) && forall i :: 0 <= i < |entries| ==> Before(entries[i], e)
    ensures Insert(entries, e) == entries + [e]
  {
    if entries == [] {
    } else {
      InsertLast(entries[1..], e);
    }
  }

  lemma {:induction false} AllDue(entries: seq<Entry>, index: map<TimerId, Entry>, now: Time)
    requires forall i :: 0 <= i < |entries| ==> entries[i].expiration <= now
    ensures PopDue(entries, index, now).due == entries
    decreases |entries|
  {
    if entries == [] {
    } else {
      AllDue(entries[1..], index - {entries[0].id}, now);
    }
  }

  lemma TakesAll(s: State)
    requires Inv(s) && !s.reading && forall i :: 0 <= i < |s.ts.entries| ==> s.ts.entries[i].expiration <= s.now
    ensures var t := Next(s, BeginRead);
            t.rest == s.ts.entries && t.reading && t.shots == s.shots
  {
    AllDue(s.ts.entries, s.ts.index, s.now);
  }

  /** s is where this run from the start ends; it reads only when the kernel timer has fired. */
  ghost predicate Reached(s: State, es: seq<Event>) {
    CanRun(Init(0), es) && ReadsWhenFired(Init(0), es) && s == Exec(Init(0), es)
  }

  lemma ReachedMore(s: State, es: seq<Event>, e: Event)
    requires Reached(s, es) && Enabled(s, e) && (e.BeginRead? ==> s.ts.fd.Fired?)
    ensures Inv(s) && Sorted(s.ts.entries) && Reached(Next(s, e), es + [e])
  {
    hide Inv, CanRun, Exec, Next, Enabled, ReadsWhenFired;
    RunSnoc(Init(0), es, e);
  }

  lemma ReachedStart()
    ensures Reached(Init(0), [])
  {
  }

  lemma TimePasses(s: State, dt: nat)
    requires Sorted(s.ts.entries)
    ensures Next(s, Advance(dt)) == s.(now := s.now + dt)
  {
  }

  lemma FiresOne(s: State)
    requires Sorted(s.ts.entries) && s.reading && s.rest != []
    ensures var t := Next(s, FireNext);
            t.reading && t.rest == s.rest[1..] && t.shots == s.shots + [Shot(s.rest[0], s.now, s.batch)]
  {
  }

  lemma CancelsNothing(s: State)
    requires Inv(s) && s.reading && s.rest == [Entry(2, 2)]
    ensures var t := Next(s, LocalCancel(2));
            t.reading && t.rest == s.rest && t.shots == s.shots
  {
  }

  /** Adds a timer behind all others. */
  lemma AlsoAdds(s: State, es: seq<Event>, expiration: Time) returns (t: State, more: seq<Event>)
    requires Reached(s, es) && !s.reading
    requires forall i :: 0 <= i < |s.ts.entries| ==> Before(s.ts.entries[i], Entry(expiration, s.ts.nextId))
    ensures Reached(t, more) && !t.reading && t.now == s.now && t.shots == s.shots
    ensures t.ts.entries == s.ts.entries + [Entry(expiration, s.ts.nextId)] && t.ts.nextId == s.ts.nextId + 1
  {
    hide Reached, Next, Inv;
    ReachedMore(s, es, LocalAdd(expiration));
    AddsLast(s, expiration);
    t, more := Next(s, LocalAdd(expiration)), es + [LocalAdd(expiration)];
  }

  lemma FdIsSet(s: State)
    requires Inv(s) && !s.reading && s.ts.entries != []
    ensures s.ts.fd.Fired? || s.ts.fd.Armed?
  {
  }

  lemma Fires(s: State)
    requires Sorted(s.ts.entries) && Enabled(s, GoOff)
    ensures Next(s, GoOff) == s.(ts := s.ts.(fd := Fired))
  {
  }

  /** Lets time pass until the last timer is due and the kernel timer has gone off, and takes
      all timers out in one batch. */
  lemma AlsoReads(s: State, es: seq<Event>, horizon: Time) returns (t: State, more: seq<Event>)
    requires Reached(s, es) && !s.reading && s.ts.entries != [] && s.now <= horizon
    requires forall i :: 0 <= i < |s.ts.entries| ==> s.ts.entries[i].expiration <= horizon
    ensures Reached(t, more) && t.reading && t.rest == s.ts.entries && t.shots == s.shots
  {
    hide Reached, Next, Inv, Sorted, ArmedForEarliest;
    ReachedMore(s, es, Advance(0));
    FdIsSet(s);
    var dt := (if s.ts.fd.Armed? then Later(horizon, s.ts.fd.at) else horizon) - s.now;
    ReachedMore(s, es, Advance(dt));
    TimePasses(s, dt);
    t, more := Next(s, Advance(dt)), es + [Advance(dt)];
    if t.ts.fd.Armed? {
      ReachedMore(t, more, GoOff);
      Fires(t);
      t, more := Next(t, GoOff), more + [GoOff];
    }
    ReachedMore(t, more, BeginRead);
    TakesAll(t);
    t, more := Next(t, BeginRead), more + [BeginRead];
  }

  lemma AlsoFires(s: State, es: seq<Event>) returns (t: State, more: seq<Event>)
    requires Reached(s, es) && s.reading && s.rest != []
    ensures Reached(t, more) && more == es + [FireNext]
    ensures t.reading && t.rest == s.rest[1..] && t.shots == s.shots + [Shot(s.rest[0], s.now, s.batch)]
  {
    hide Reached, Next, Inv, Sorted;
    ReachedMore(s, es, FireNext);
    FiresOne(s);
    t, more := Next(s, FireNext), es + [FireNext];
  }

  lemma AlsoCancels(s: State, es: seq<Event>) returns (t: State, more: seq<Event>)
    requires Reached(s, es) && s.reading && s.rest == [Entry(2, 2)]
    ensures Reached(t, more) && more == es + [LocalCancel(2)]
    ensures t.reading && t.rest == [Entry(2, 2)] && t.shots == s.shots
  {
    hide Reached, Next, Inv, Sorted;
    ReachedMore(s, es, LocalCancel(2));
    CancelsNothing(s);
    t, more := Next(s, LocalCancel(2)), es + [LocalCancel(2)];
  }

  /** From the start: two timers are due together, the callback of the first cancels the
      second, and only then the second fires. */
  lemma CancelInsideItsBatchIsTooLate() returns (before: State, s: State, es: seq<Event>)
    ensures Reached(before, es) && Reached(s, es + [LocalCancel(2)] + [FireNext])
    ensures |before.shots| == 1 && before.shots[0].e == Entry(1, 1)
    ensures |s.shots| == 2 && s.shots[0] == before.shots[0] && s.shots[1].e == Entry(2, 2)
  {
    ReachedStart();
    s, es := Init(0), [];
    hide Reached, Inv;
    s, es := AlsoAdds(s, es, 1);
    s, es := AlsoAdds(s, es, 2);
    s, es := AlsoReads(s, es, 2);
    s, es := AlsoFires(s, es);
    before := s;
    var more;
    s, more := AlsoCancels(s, es);
    s, more := AlsoFires(s, more);
  }

  /** From the start: a timer that another thread has posted, and that is cancelled on the loop
      thread before the loop has added it, can still fire. */
  lemma CancelBeforeItsAddIsTooEarly() returns (s: State, es: seq<Event>, more: seq<Event>)
    ensures Reached(s, es) && es == [] + [Issue(1)] + [PostAdd(Entry(1, 1))] + [LocalCancel(1)]
    ensures Inv(s) && CanRun(s, more) && ReadsWhenFired(s, more) && 1 in ShotIds(Exec(s, more).shots)
  {
    s, es := PostsOne();
    hide Reached, Next, Inv, ShotIds, CanRun, Exec, ReadsWhenFired;
    ReachedMore(s, es, LocalCancel(1));
    CancelMoves(s, 1);
    Preserved(s, LocalCancel(1));
    s, es := Next(s, LocalCancel(1)), es + [LocalCancel(1)];
    more := CanFire(s, 1);
  }

  lemma PostsOne() returns (s: State, es: seq<Event>)
    ensures Reached(s, es) && At(s, 1, Queued) && es == [] + [Issue(1)] + [PostAdd(Entry(1, 1))]
  {
    ReachedStart();
    hide Reached, Inv;
    ReachedMore(Init(0), [], Issue(1));
    s := Next(Init(0), Issue(1));
    ReachedMore(s, [] + [Issue(1)], PostAdd(Entry(1, 1)));
    s, es := Next(s, PostAdd(Entry(1, 1))), [] + [Issue(1)] + [PostAdd(Entry(1, 1))];
  }
}
