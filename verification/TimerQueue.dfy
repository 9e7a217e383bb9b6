/**
 The timer queue of src/timer_queue.cpp: an ordered set of entries, an index from timer id
 to entry, and one kernel timer that must stand at the earliest entry.  Times are
 nanoseconds of the steady clock.  A callback is known by its timer id; what it does to the
 queue while it runs is an arbitrary list of actions, executed synchronously because it runs
 on the loop thread.
 */
module TimerQueue {

  type Time = int
  type TimerId = nat

  datatype Entry = Entry(expiration: Time, id: TimerId)

  predicate Before(a: Entry, b: Entry) {
    a.expiration < b.expiration || (a.expiration == b.expiration && a.id < b.id)
  }

  predicate Sorted(s: seq<Entry>) {
    forall i, j :: 0 <= i < j < |s| ==> Before(s[i], s[j])
  }

  /** Insertion into the ordered set. */
  function Insert(s: seq<Entry>, e: Entry): (r: seq<Entry>)
    requires Sorted(s)
    ensures Sorted(r) && r != []
    ensures forall x :: x in r <==> x == e || x in s
    ensures r[0] == if s == [] || Before(e, s[0]) then e else s[0]
  {
    if s == [] || Before(e, s[0]) then [e] + s
    else if s[0] == e then s
    else
      var t := Insert(s[1..], e);
      assert forall x :: x in t ==> Before(s[0], x);
      [s[0]] + t
  }

  /** Erasure of one element. */
  function Erase(s: seq<Entry>, e: Entry): (r: seq<Entry>)
    requires Sorted(s)
    ensures Sorted(r)
    ensures forall x :: x in r <==> x in s && x != e
    ensures s != [] && s[0] != e ==> r != [] && r[0] == s[0]
  {
    if s == [] then []
    else if s[0] == e then s[1..]
    else
      var t := Erase(s[1..], e);
      assert forall x :: x in t ==> Before(s[0], x);
      [s[0]] + t
  }

  /** The kernel timer: not set, set to go off `at` (by a call at time `setAt`), or gone off
      and not read yet. */
  datatype TimerFd = Disarmed | Armed(at: Time, setAt: Time) | Fired

  const NANOS := 1_000_000_000

  datatype Timespec = Timespec(sec: nat, nsec: nat)

  /** The relative setting: never all-zero, which would disarm the kernel timer. */
  function ToItimerspec(expiration: Time, now: Time): (r: Timespec)
    ensures r.nsec < NANOS && r != Timespec(0, 0)
    ensures now + r.sec * NANOS + r.nsec == Later(expiration, now + 1)
  {
    var remaining := if expiration - now < 1 then 1 else expiration - now;
    Timespec(remaining / NANOS, remaining % NANOS)
  }

  function Later(a: Time, b: Time): Time {
    if a < b then b else a
  }

  function Reset(earliest: Time, now: Time): TimerFd {
    var spec := ToItimerspec(earliest, now);
    Armed(now + spec.sec * NANOS + spec.nsec, now)
  }

  datatype Timers = Timers(entries: seq<Entry>, index: map<TimerId, Entry>, fd: TimerFd, nextId: TimerId)

  /** The index is exactly the id index of the ordered set, and ids are not reused. */
  ghost predicate Consistent(ts: Timers) {
    && Sorted(ts.entries)
    && (forall e :: e in ts.entries ==> e.id in ts.index && ts.index[e.id] == e)
    && (forall id :: id in ts.index ==> ts.index[id].id == id && ts.index[id] in ts.entries && id < ts.nextId)
  }

  /** With timers waiting, the kernel timer stands at the earliest of them (or one
      nanosecond after it was set, if that was already due), or has gone off unread. */
  ghost predicate ArmedForEarliest(ts: Timers) {
    ts.entries != [] ==>
      ts.fd.Fired? || (ts.fd.Armed? && ts.fd.at == Later(ts.entries[0].expiration, ts.fd.setAt + 1))
  }

  function Add(ts: Timers, e: Entry, now: Time): Timers
    requires Sorted(ts.entries)
  {
    var earliestChanged := ts.entries == [] || Before(e, ts.entries[0]);
    var entries := Insert(ts.entries, e);
    ts.(entries := entries,
        index := if e.id in ts.index then ts.index else ts.index[e.id := e],
        fd := if earliestChanged then Reset(entries[0].expiration, now) else ts.fd)
  }

  function Cancel(ts: Timers, id: TimerId, now: Time): Timers
    requires Sorted(ts.entries)
  {
    if id !in ts.index then
      ts
    else
      var e := ts.index[id];
      var wasEarliest := ts.entries != [] && ts.entries[0] == e;
      var entries := Erase(ts.entries, e);
      ts.(entries := entries,
          index := ts.index - {id},
          fd := if wasEarliest && entries != [] then Reset(entries[0].expiration, now) else ts.fd)
  }

  /** What the extraction loop takes out, and what it leaves in both containers. */
  datatype Extraction = Extraction(due: seq<Entry>, left: seq<Entry>, index: map<TimerId, Entry>)

  function PopDue(entries: seq<Entry>, index: map<TimerId, Entry>, now: Time): Extraction
    decreases |entries|
  {
    if entries == [] || entries[0].expiration > now then
      Extraction([], entries, index)
    else
      var r := PopDue(entries[1..], index - {entries[0].id}, now);
      r.(due := [entries[0]] + r.due)
  }

  function Due(ts: Timers, now: Time): seq<Entry> {
    PopDue(ts.entries, ts.index, now).due
  }

  /** handle_read up to the callbacks: the kernel timer is read, due entries leave both
      containers. */
  function Extract(ts: Timers, now: Time): Timers {
    var r := PopDue(ts.entries, ts.index, now);
    ts.(entries := r.left, index := r.index, fd := AfterRead(ts.fd))
  }

  predicate FirstIsDue(ts: Timers, now: Time) {
    ts.entries != [] && ts.entries[0].expiration <= now
  }

  function WithoutFirst(ts: Timers): Timers
    requires ts.entries != []
  {
    ts.(entries := ts.entries[1..], index := ts.index - {ts.entries[0].id})
  }

  lemma ExtractStep(ts: Timers, now: Time)
    ensures !FirstIsDue(ts, now) ==> Due(ts, now) == [] && Extract(ts, now) == ts.(fd := AfterRead(ts.fd))
    ensures FirstIsDue(ts, now) ==>
            && Due(ts, now) == [ts.entries[0]] + Due(WithoutFirst(ts), now)
            && Extract(ts, now) == Extract(WithoutFirst(ts), now)
  {
  }

  lemma FirstLeaves(ts: Timers)
    requires ts.entries != []
    ensures |WithoutFirst(ts).entries| == |ts.entries| - 1 && WithoutFirst(ts).fd == ts.fd
  {
  }

  lemma ExtractStart(ts: Timers, now: Time)
    ensures Due(ts.(fd := AfterRead(ts.fd)), now) == Due(ts, now)
    ensures Extract(ts.(fd := AfterRead(ts.fd)), now) == Extract(ts, now)
  {
  }

  function AfterRead(fd: TimerFd): TimerFd {
    if fd.Fired? then Disarmed else fd
  }

  function IdsOf(s: seq<Entry>): set<TimerId> {
    set e | e in s :: e.id
  }

  lemma UnusedId(ts: Timers)
    requires Consistent(ts)
    ensures ts.nextId !in ts.index
    ensures Consistent(ts.(nextId := ts.nextId + 1))
    ensures ArmedForEarliest(ts.(nextId := ts.nextId + 1)) <==> ArmedForEarliest(ts)
  {
  }

  /** handle_read after the callbacks. */
  function Rearm(ts: Timers, now: Time): Timers {
    if ts.entries == [] then ts else ts.(fd := Reset(ts.entries[0].expiration, now))
  }

  /** What a callback may do to the queue, with the clock reading it makes. */
  datatype Action = RunAt(expiration: Time, now: Time) | CancelTimer(id: TimerId, now: Time)

  function Act(ts: Timers, a: Action): Timers
    requires Consistent(ts)
  {
    match a
    case RunAt(expiration, now) => Add(ts.(nextId := ts.nextId + 1), Entry(expiration, ts.nextId), now)
    case CancelTimer(id, now) => Cancel(ts, id, now)
  }

  lemma ResetArms(earliest: Time, now: Time)
    ensures Reset(earliest, now) == Armed(Later(earliest, now + 1), now)
  {
  }

  lemma AddKeeps(ts: Timers, e: Entry, now: Time)
    requires Consistent(ts) && e.id !in ts.index && e.id < ts.nextId
    ensures Consistent(Add(ts, e, now))
    ensures Add(ts, e, now).index.Keys == ts.index.Keys + {e.id} && Add(ts, e, now).nextId == ts.nextId
    ensures forall x :: x in Add(ts, e, now).entries <==> x == e || x in ts.entries
    ensures ArmedForEarliest(ts) ==> ArmedForEarliest(Add(ts, e, now))
  {
    hide Reset, Later, Before;
    ResetArms(Insert(ts.entries, e)[0].expiration, now);
  }

  lemma CancelKeeps(ts: Timers, id: TimerId, now: Time)
    requires Consistent(ts)
    ensures Consistent(Cancel(ts, id, now))
    ensures Cancel(ts, id, now).index.Keys == ts.index.Keys - {id} && Cancel(ts, id, now).nextId == ts.nextId
    ensures ArmedForEarliest(ts) ==> ArmedForEarliest(Cancel(ts, id, now))
  {
    CancelArms(ts, id, now);
    hide Reset, Later, Before, ArmedForEarliest;
    if id in ts.index {
      var left := Erase(ts.entries, ts.index[id]);
      forall x | x in ts.index - {id}
        ensures ts.index[x] in left
      {
      }
    }
  }

  lemma CancelTakesOut(ts: Timers, id: TimerId, now: Time)
    requires Consistent(ts)
    ensures forall x :: x in Cancel(ts, id, now).entries <==> x in ts.entries && x.id != id
  {
    hide Reset, Before, Sorted;
  }

  lemma CancelArms(ts: Timers, id: TimerId, now: Time)
    requires Sorted(ts.entries)
    ensures ArmedForEarliest(ts) ==> ArmedForEarliest(Cancel(ts, id, now))
  {
    hide Reset, Later, Before;
    if id in ts.index {
      var left := Erase(ts.entries, ts.index[id]);
      if left != [] {
        ResetArms(left[0].expiration, now);
      }
    }
  }

  lemma StaysConsistent(ts: Timers, now: Time)
    requires Consistent(ts)
    ensures Consistent(Extract(ts, now))
  {
    ExtractKeeps(ts, now);
  }

  /** The loop takes exactly the due entries, in order, and both containers still agree. */
  lemma {:induction false} ExtractKeeps(ts: Timers, now: Time)
    requires Consistent(ts)
    ensures Consistent(Extract(ts, now))
    ensures Due(ts, now) + Extract(ts, now).entries == ts.entries && Sorted(Due(ts, now))
    ensures forall e :: e in Due(ts, now) <==> e in ts.entries && e.expiration <= now
    ensures Extract(ts, now).index.Keys == ts.index.Keys - IdsOf(Due(ts, now)) && Extract(ts, now).nextId == ts.nextId
    decreases |ts.entries|
  {
    hide Extract, Due, Consistent, Before, WithoutFirst;
    ExtractStep(ts, now);
    if FirstIsDue(ts, now) {
      var first, rest := ts.entries[0], WithoutFirst(ts);
      FirstOut(ts);
      ExtractKeeps(rest, now);
      assert forall e :: e in Due(ts, now) <==> e == first || e in Due(rest, now);
      assert IdsOf(Due(ts, now)) == {first.id} + IdsOf(Due(rest, now));
    } else {
      NoneDue(ts, now);
    }
  }

  lemma NoneDue(ts: Timers, now: Time)
    requires Consistent(ts) && !FirstIsDue(ts, now)
    ensures forall e :: e in ts.entries ==> e.expiration > now
    ensures Consistent(ts.(fd := AfterRead(ts.fd)))
  {
  }

  lemma FirstOut(ts: Timers)
    requires Consistent(ts) && ts.entries != []
    ensures Consistent(WithoutFirst(ts))
    ensures WithoutFirst(ts).index.Keys == ts.index.Keys - {ts.entries[0].id} && WithoutFirst(ts).nextId == ts.nextId
    ensures ts.entries == [ts.entries[0]] + WithoutFirst(ts).entries
    ensures forall e :: e in ts.entries <==> e == ts.entries[0] || e in WithoutFirst(ts).entries
    ensures forall e :: e in WithoutFirst(ts).entries ==> Before(ts.entries[0], e)
  {
  }

  lemma ActKeeps(ts: Timers, a: Action)
    requires Consistent(ts)
    ensures Consistent(Act(ts, a))
    ensures ArmedForEarliest(ts) ==> ArmedForEarliest(Act(ts, a))
  {
    match a
    case RunAt(expiration, now) =>
      AddKeeps(ts.(nextId := ts.nextId + 1), Entry(expiration, ts.nextId), now);
    case CancelTimer(id, now) =>
      CancelKeeps(ts, id, now);
  }

  /** run_at from a callback enters exactly its timer, under a new id; cancel takes out exactly
      the timer with that id. */
  lemma ActMeans(ts: Timers, a: Action)
    requires Consistent(ts)
    ensures a.RunAt? ==>
            && Act(ts, a).nextId == ts.nextId + 1
            && forall x :: x in Act(ts, a).entries <==> x == Entry(a.expiration, ts.nextId) || x in ts.entries
    ensures a.CancelTimer? ==>
            && Act(ts, a).nextId == ts.nextId
            && forall x :: x in Act(ts, a).entries <==> x in ts.entries && x.id != a.id
  {
    UnusedId(ts);
    match a
    case RunAt(expiration, now) =>
      AddKeeps(ts.(nextId := ts.nextId + 1), Entry(expiration, ts.nextId), now);
    case CancelTimer(id, now) =>
      CancelTakesOut(ts, id, now);
  }

  function ActAll(ts: Timers, actions: seq<Action>): (r: Timers)
    requires Consistent(ts)
    ensures Consistent(r)
    ensures ArmedForEarliest(ts) ==> ArmedForEarliest(r)
    decreases |actions|
  {
    if actions == [] then ts
    else
      ActKeeps(ts, actions[0]);
      ActAll(Act(ts, actions[0]), actions[1..])
  }

  /** The callbacks of a batch, in order, each with its actions. */
  function FireAll(ts: Timers, due: seq<Entry>, reacts: TimerId -> seq<Action>): (r: Timers)
    requires Consistent(ts)
    ensures Consistent(r)
    decreases |due|
  {
    if due == [] then ts
    else FireAll(ActAll(ts, reacts(due[0].id)), due[1..], reacts)
  }

  /** All of handle_read: the reads of the clock happen at readAt and rearmAt. */
  function Handled(ts: Timers, readAt: Time, reacts: TimerId -> seq<Action>, rearmAt: Time): Timers
    requires Consistent(ts)
  {
    ExtractKeeps(ts, readAt);
    Rearm(FireAll(Extract(ts, readAt), Due(ts, readAt), reacts), rearmAt)
  }

  /** Whatever the callbacks add and cancel, at return the structures agree and the kernel
      timer stands at the earliest entry, even if it did not before. */
  lemma HandleReadRestores(ts: Timers, readAt: Time, reacts: TimerId -> seq<Action>, rearmAt: Time)
    requires Consistent(ts)
    ensures Consistent(Handled(ts, readAt, reacts, rearmAt))
    ensures ArmedForEarliest(Handled(ts, readAt, reacts, rearmAt))
  {
    ExtractKeeps(ts, readAt);
  }

  class TimerQueue {
    var timers: seq<Entry>
    var idToIter: map<TimerId, Entry>
    var timerfd: TimerFd
    var nextId: TimerId

    ghost function View(): Timers
      reads this
    {
      Timers(timers, idToIter, timerfd, nextId)
    }

    ghost predicate Valid()
      reads this
    {
      Consistent(View())
    }

    constructor ()
      ensures Valid() && ArmedForEarliest(View()) && View() == Timers([], map[], Disarmed, 1)
    {
      timers, idToIter, timerfd, nextId := [], map[], Disarmed, 1;
    }

    method ResetTimerfd(earliest: Time, now: Time)
      modifies this`timerfd
      ensures timerfd == Reset(earliest, now)
    {
      var spec := ToItimerspec(earliest, now);
      timerfd := Armed(now + spec.sec * NANOS + spec.nsec, now);
    }

    method AddTimerInLoop(entry: Entry, now: Time)
      requires Valid() && entry.id !in idToIter && entry.id < nextId
      modifies this`timers, this`idToIter, this`timerfd
      ensures Valid() && View() == Add(old(View()), entry, now)
      ensures old(ArmedForEarliest(View())) ==> ArmedForEarliest(View())
    {
      AddKeeps(View(), entry, now);
      var earliestChanged := timers == [] || Before(entry, timers[0]);
      timers := Insert(timers, entry);
      idToIter := idToIter[entry.id := entry];
      if earliestChanged {
        ResetTimerfd(timers[0].expiration, now);
      }
    }

    method CancelInLoop(id: TimerId, now: Time)
      requires Valid()
      modifies this`timers, this`idToIter, this`timerfd
      ensures Valid() && View() == Cancel(old(View()), id, now)
      ensures id !in idToIter
      ensures old(ArmedForEarliest(View())) ==> ArmedForEarliest(View())
    {
      CancelKeeps(View(), id, now);
      if id !in idToIter {
        return;
      }
      var e := idToIter[id];
      var wasEarliest := timers != [] && timers[0] == e;
      timers := Erase(timers, e);
      idToIter := idToIter - {id};
      if wasEarliest && timers != [] {
        ResetTimerfd(timers[0].expiration, now);
      }
    }

    /** Erases the earliest entry from both containers. */
    method PopFirst()
      requires timers != []
      modifies this`timers, this`idToIter
      ensures View() == WithoutFirst(old(View()))
    {
      idToIter := idToIter - {timers[0].id};
      timers := timers[1..];
    }

    /** The extraction loop of handle_read. */
    method ExtractExpired(now: Time) returns (expired: seq<Entry>)
      requires Valid()
      modifies this`timers, this`idToIter, this`timerfd
      ensures Valid() && View() == Extract(old(View()), now)
      ensures expired == Due(old(View()), now)
    {
      StaysConsistent(View(), now);
      ExtractStart(View(), now);
      hide Consistent, Due, Extract, WithoutFirst;
      timerfd := AfterRead(timerfd);
      expired := [];
      while timers != [] && timers[0].expiration <= now
        invariant expired + Due(View(), now) == Due(old(View()), now)
        invariant Extract(View(), now) == Extract(old(View()), now)
        invariant !timerfd.Fired?
        decreases |timers|
      {
        ghost var rest := Due(WithoutFirst(View()), now);
        FirstLeaves(View());
        ExtractStep(View(), now);
        assert expired + ([timers[0]] + rest) == expired + [timers[0]] + rest;
        expired := expired + [timers[0]];
        PopFirst();
      }
      ExtractStep(View(), now);
    }

    /** Performs the actions of one callback, synchronously. */
    method Perform(actions: seq<Action>)
      requires Valid()
      modifies this
      ensures Valid() && View() == ActAll(old(View()), actions)
    {
      hide Consistent, Add, Cancel;
      for i := 0 to |actions|
        invariant Valid()
        invariant ActAll(old(View()), actions) == ActAll(View(), actions[i..])
      {
        ActKeeps(View(), actions[i]);
        assert actions[i..][1..] == actions[i + 1..];
        match actions[i] {
          case RunAt(expiration, now) =>
            UnusedId(View());
            var id := nextId;
            nextId := nextId + 1;
            AddTimerInLoop(Entry(expiration, id), now);
          case CancelTimer(id, now) =>
            CancelInLoop(id, now);
        }
      }
    }

    method HandleRead(readAt: Time, reacts: TimerId -> seq<Action>, rearmAt: Time) returns (fired: seq<Entry>)
      requires Valid()
      modifies this
      ensures Valid() && ArmedForEarliest(View())
      ensures View() == Handled(old(View()), readAt, reacts, rearmAt)
      ensures fired == Due(old(View()), readAt) && Sorted(fired)
      ensures forall e :: e in fired <==> e in old(timers) && e.expiration <= readAt
    {
      HandleReadRestores(View(), readAt, reacts, rearmAt);
      ExtractKeeps(View(), readAt);
      fired := ExtractExpired(readAt);
      ghost var start := View();
      for i := 0 to |fired|
        invariant Valid()
        invariant FireAll(start, fired, reacts) == FireAll(View(), fired[i..], reacts)
      {
        assert fired[i..][1..] == fired[i + 1..];
        Perform(reacts(fired[i].id));
      }
      if timers != [] {
        ResetTimerfd(timers[0].expiration, rearmAt);
      }
    }
  }
}
