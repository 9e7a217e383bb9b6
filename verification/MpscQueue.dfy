/**
 The bounded multi-producer single-consumer queue of util/mpsc_queue.h.  The class works on
 a ring of slots; each of its atomic sections is proved against a function on `Queue`, the
 value that the interleaving model in LogProtocol.dfy works with.
 */
module MpscQueue {
  import opened Arithmetic

  /** The queue as a value: `pending` is the edge flag, `dropped` the count of refused pushes. */
  datatype Queue<T> = Queue(cap: nat, items: seq<T>, dropped: nat, pending: bool)

  /** The section of push under the lock: a full queue refuses the newest element. */
  function Offer<T>(q: Queue<T>, v: T): Queue<T> {
    if Full(q) then q else q.(items := q.items + [v])
  }

  predicate Full<T>(q: Queue<T>) {
    |q.items| == q.cap
  }

  /** The fetch_add of a refused push. */
  function CountDrop<T>(q: Queue<T>): Queue<T> {
    q.(dropped := q.dropped + 1)
  }

  /** The compare-and-swap of an accepted push; it wakes the consumer iff the flag was down. */
  function Raise<T>(q: Queue<T>): Queue<T> {
    q.(pending := true)
  }

  function TakenBy<T>(q: Queue<T>, max: nat): (k: nat)
    ensures k <= |q.items| && k <= max
    ensures k < |q.items| ==> k == max
  {
    if |q.items| <= max then |q.items| else max
  }

  /** The loop of drain, still without the flag. */
  function Remove<T>(q: Queue<T>, max: nat): Queue<T> {
    q.(items := q.items[TakenBy(q, max)..])
  }

  /** The last act of drain under the lock: an emptied queue lowers the flag. */
  function Settle<T>(q: Queue<T>): Queue<T> {
    if q.items == [] then q.(pending := false) else q
  }

  function ClearDropped<T>(q: Queue<T>): Queue<T> {
    q.(dropped := 0)
  }

  function Wrap(x: nat, cap: nat): nat
    requires x < 2 * cap
  {
    if x < cap then x else x - cap
  }

  lemma ModuloWraps(x: nat, cap: nat)
    requires 0 < cap && x < 2 * cap
    ensures x % cap == Wrap(x, cap)
  {
    if x < cap {
      SmallModulus(x, cap);
    } else {
      ModulusOnce(x, cap);
    }
  }

  /** The elements of a ring, oldest first. */
  function Ring<T>(slots: seq<T>, head: nat, count: nat): (r: seq<T>)
    requires head < |slots| && count <= |slots|
    ensures |r| == count
    ensures forall i :: 0 <= i < count ==> r[i] == slots[Wrap(head + i, |slots|)]
  {
    seq(count, i requires 0 <= i < count => slots[Wrap(head + i, |slots|)])
  }

  lemma RingAppend<T>(slots: seq<T>, head: nat, count: nat, v: T)
    requires head < |slots| && count < |slots|
    ensures Ring(slots[Wrap(head + count, |slots|) := v], head, count + 1) == Ring(slots, head, count) + [v]
  {
  }

  lemma RingRest<T>(slots: seq<T>, head: nat, count: nat)
    requires head < |slots| && 0 < count <= |slots|
    ensures Ring(slots, Wrap(head + 1, |slots|), count - 1) == Ring(slots, head, count)[1..]
    ensures Ring(slots, head, count)[0] == slots[head]
  {
    var all := Ring(slots, head, count);
    var rest := Ring(slots, Wrap(head + 1, |slots|), count - 1);
    forall i | 0 <= i < |rest|
      ensures rest[i] == all[1..][i]
    {
      assert all[1..][i] == all[i + 1];
    }
  }

  class MpscQueue<T(0)> {
    const cap: nat
    const slots: array<T>
    var head: nat
    var tail: nat
    var count: nat
    var dropped: nat
    var hasPending: bool

    ghost predicate Valid()
      reads this
    {
      && 0 < cap == slots.Length
      && head < cap && count <= cap
      && tail == Wrap(head + count, cap)
    }

    ghost function View(): Queue<T>
      requires Valid()
      reads this, slots
    {
      Queue(cap, Ring(slots[..], head, count), dropped, hasPending)
    }

    /** Capacity 0 is raised to 1. */
    constructor (capacity: nat)
      ensures Valid() && fresh(slots)
      ensures View() == Queue(if capacity == 0 then 1 else capacity, [], 0, false)
    {
      cap := if capacity == 0 then 1 else capacity;
      slots := new T[if capacity == 0 then 1 else capacity];
      head, tail, count := 0, 0, 0;
      dropped, hasPending := 0, false;
    }

    method PushLocked(v: T) returns (ok: bool)
      requires Valid()
      modifies this`tail, this`count, slots
      ensures Valid()
      ensures ok <==> !Full(old(View()))
      ensures View() == Offer(old(View()), v)
    {
      if count == cap {
        return false;
      }
      RingAppend(slots[..], head, count, v);
      ModuloWraps(tail + 1, cap);
      slots[tail] := v;
      tail := (tail + 1) % cap;
      count := count + 1;
      return true;
    }

    method CountDropped()
      requires Valid()
      modifies this`dropped
      ensures Valid() && View() == CountDrop(old(View()))
    {
      dropped := dropped + 1;
    }

    method RaiseFlag() returns (wake: bool)
      requires Valid()
      modifies this`hasPending
      ensures Valid() && View() == Raise(old(View()))
      ensures wake <==> !old(View()).pending
    {
      wake := !hasPending;
      hasPending := true;
    }

    /** The whole of push when no other thread comes between its sections. */
    method Push(v: T) returns (ok: bool, wake: bool)
      requires Valid()
      modifies this, slots
      ensures Valid()
      ensures ok <==> |old(View()).items| < cap
      ensures wake <==> ok && !old(View()).pending
      ensures View() == if ok then Raise(Offer(old(View()), v)) else CountDrop(old(View()))
    {
      ok := PushLocked(v);
      if !ok {
        CountDropped();
        return false, false;
      }
      wake := RaiseFlag();
    }

    method PopFront() returns (v: T)
      requires Valid() && count > 0
      modifies this`head, this`count
      ensures Valid() && count == old(count) - 1
      ensures v == old(View()).items[0] && View() == old(View()).(items := old(View()).items[1..])
    {
      RingRest(slots[..], head, count);
      ModuloWraps(head + 1, cap);
      v := slots[head];
      head := (head + 1) % cap;
      count := count - 1;
    }

    /** Moves up to max elements to the end of out; under the lock from start to finish. */
    method Drain(out: seq<T>, max: nat) returns (all: seq<T>, taken: nat)
      requires Valid()
      modifies this`head, this`count, this`hasPending
      ensures Valid()
      ensures taken == TakenBy(old(View()), max)
      ensures all == out + old(View()).items[..taken]
      ensures View() == if max == 0 then old(View()) else Settle(Remove(old(View()), max))
    {
      hide Ring;
      all, taken := out, 0;
      if max == 0 {
        return;
      }
      ghost var items := View().items;
      while taken < max && count > 0
        invariant Valid() && taken <= max && taken <= |items|
        invariant View() == old(View()).(items := items[taken..])
        invariant all == out + items[..taken]
      {
        var v := PopFront();
        all := all + [v];
        taken := taken + 1;
      }
      if count == 0 {
        hasPending := false;
      }
    }

    method TakeDropped() returns (n: nat)
      requires Valid()
      modifies this`dropped
      ensures Valid() && n == old(View()).dropped && View() == ClearDropped(old(View()))
    {
      n := dropped;
      dropped := 0;
    }
  }
}
