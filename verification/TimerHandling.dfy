/**
 Two views of the runs in TimerRuns.dfy: handle_read as the class of TimerQueue.dfy performs it,
 with whatever its callbacks add and cancel, is one of them; and over all of them a timer is
 kept, and fired, with the very expiration that it was asked for.
 */
module TimerHandling {
  import opened TimerQueue
  import opened TimerRuns

  // ----- handle_read with its callbacks is a run -----

  lemma {:induction false} RunOn(s: State, a: seq<Event>, b: seq<Event>)
    requires Inv(s) && CanRun(s, a) && CanRun(Exec(s, a), b)
    ensures CanRun(s, a + b) && Exec(s, a + b) == Exec(Exec(s, a), b)
    decreases |a|
  {
    assert Sorted(s.ts.entries);
    hide Inv, Enabled, Next, Sorted;
    if a == [] {
      assert a + b == b;
    } else {
      Preserved(s, a[0]);
      assert (a + b)[1..] == a[1..] + b && (a + b)[0] == a[0];
      RunOn(Next(s, a[0]), a[1..], b);
    }
  }

  lemma JustOne(s: State, e: Event)
    requires Inv(s) && Enabled(s, e)
    ensures Sorted(s.ts.entries) && CanRun(s, [e]) && Exec(s, [e]) == Next(s, e) && Inv(Next(s, e))
  {
    hide Inv, Enabled, Next, Sorted;
    RunSnoc(s, [], e);
    assert [] + [e] == [e];
  }

  /** The clock readings that a callback's actions make do not go back. */
  predicate Timely(now: Time, actions: seq<Action>)
    decreases |actions|
  {
    actions == [] || (now <= actions[0].now && Timely(actions[0].now, actions[1..]))
  }

  function TimeAfter(now: Time, actions: seq<Action>): Time {
    if actions == [] then now else actions[|actions| - 1].now
  }

  /** Nor do they from one callback of a batch to the next. */
  predicate TimelyBatch(now: Time, due: seq<Entry>, reacts: TimerId -> seq<Action>)
    decreases |due|
  {
    due == [] ||
    (Timely(now, reacts(due[0].id)) && TimelyBatch(TimeAfter(now, reacts(due[0].id)), due[1..], reacts))
  }

  function TimeAfterBatch(now: Time, due: seq<Entry>, reacts: TimerId -> seq<Action>): Time
    decreases |due|
  {
    if due == [] then now else TimeAfterBatch(TimeAfter(now, reacts(due[0].id)), due[1..], reacts)
  }

  /** Only the timers, their places and the clock have moved. */
  ghost predicate SameBatch(s: State, t: State) {
    t.reading == s.reading && t.rest == s.rest && t.shots == s.shots && t.batch == s.batch
  }

  lemma ActIsAStep(s: State, a: Action) returns (e: Event)
    requires Inv(s) && s.now == a.now
    ensures Enabled(s, e)
    ensures var t := Next(s, e);
            t.ts == Act(s.ts, a) && t.now == s.now && SameBatch(s, t)
  {
    match a
    case RunAt(expiration, _) => e := LocalAdd(expiration);
    case CancelTimer(id, _) => e := LocalCancel(id);
  }

  lemma ActIsARun(s: State, a: Action) returns (es: seq<Event>)
    requires Inv(s) && s.now <= a.now
    ensures CanRun(s, es)
    ensures var t := Exec(s, es);
            t.ts == Act(s.ts, a) && t.now == a.now && SameBatch(s, t)
  {
    assert Consistent(s.ts);
    hide Inv, Next, CanRun, Exec, Act;
    var wait := Advance(a.now - s.now);
    JustOne(s, wait);
    TimePasses(s, a.now - s.now);
    var t := Next(s, wait);
    var e := ActIsAStep(t, a);
    JustOne(t, e);
    RunOn(s, [wait], [e]);
    es := [wait] + [e];
  }

  lemma {:induction false} ActAllIsARun(s: State, actions: seq<Action>) returns (es: seq<Event>)
    requires Inv(s) && Timely(s.now, actions)
    ensures CanRun(s, es)
    ensures var t := Exec(s, es);
            t.ts == ActAll(s.ts, actions) && t.now == TimeAfter(s.now, actions) && SameBatch(s, t)
    decreases |actions|
  {
    assert Consistent(s.ts);
    if actions == [] {
      es := [];
    } else {
      hide Inv, Next, Act, CanRun, Exec, Consistent;
      var first := ActIsARun(s, actions[0]);
      var t := Exec(s, first);
      var rest := ActAllIsARun(t, actions[1..]);
      RunOn(s, first, rest);
      es := first + rest;
    }
  }

  /** The first timer of the batch fires and its callback acts. */
  lemma FireOneIsARun(s: State, reacts: TimerId -> seq<Action>) returns (es: seq<Event>)
    requires Inv(s) && s.reading && s.rest != [] && Timely(s.now, reacts(s.rest[0].id))
    ensures CanRun(s, es)
    ensures var t, actions := Exec(s, es), reacts(s.rest[0].id);
            && t.ts == ActAll(s.ts, actions) && t.now == TimeAfter(s.now, actions) && t.reading
            && t.rest == s.rest[1..] && t.shots == s.shots + [Shot(s.rest[0], s.now, s.batch)]
  {
    assert Consistent(s.ts);
    JustOne(s, FireNext);
    FiresOne(s);
    var t := Next(s, FireNext);
    assert t.ts == s.ts && t.now == s.now;
    hide Inv, Next, CanRun, Exec, Timely, TimeAfter, ActAll;
    var acts := ActAllIsARun(t, reacts(s.rest[0].id));
    RunOn(s, [FireNext], acts);
    es := [FireNext] + acts;
  }

  /** Between s and t exactly these timers have fired, in this order. */
  ghost predicate HasFired(s: State, t: State, due: seq<Entry>) {
    && |t.shots| == |s.shots| + |due| && s.shots <= t.shots
    && forall i :: 0 <= i < |due| ==> t.shots[|s.shots| + i].e == due[i]
  }

  lemma FiredMore(s: State, t: State, u: State, first: Shot, due: seq<Entry>)
    requires t.shots == s.shots + [first] && HasFired(t, u, due)
    ensures HasFired(s, u, [first.e] + due)
  {
    forall i | 0 <= i < |due| + 1
      ensures u.shots[|s.shots| + i].e == ([first.e] + due)[i]
    {
      if i == 0 {
        assert t.shots[|s.shots|] == u.shots[|s.shots|];
      } else {
        assert u.shots[|t.shots| + (i - 1)].e == due[i - 1];
      }
    }
  }

  lemma {:induction false} FireAllIsARun(s: State, reacts: TimerId -> seq<Action>) returns (es: seq<Event>)
    requires Inv(s) && s.reading && TimelyBatch(s.now, s.rest, reacts)
    ensures CanRun(s, es)
    ensures var t := Exec(s, es);
            && t.ts == FireAll(s.ts, s.rest, reacts) && t.rest == [] && t.reading
            && t.now == TimeAfterBatch(s.now, s.rest, reacts) && HasFired(s, t, s.rest)
    decreases |s.rest|
  {
    assert Consistent(s.ts);
    if s.rest == [] {
      es := [];
    } else {
      var actions := reacts(s.rest[0].id);
      assert FireAll(s.ts, s.rest, reacts) == FireAll(ActAll(s.ts, actions), s.rest[1..], reacts);
      assert TimeAfterBatch(s.now, s.rest, reacts) == TimeAfterBatch(TimeAfter(s.now, actions), s.rest[1..], reacts);
      assert TimelyBatch(TimeAfter(s.now, actions), s.rest[1..], reacts) && Timely(s.now, actions);
      hide Inv, Next, CanRun, Exec, Timely, TimeAfter, TimelyBatch, TimeAfterBatch, ActAll, FireAll, HasFired, Consistent;
      var one := FireOneIsARun(s, reacts);
      var t := Exec(s, one);
      var rest := FireAllIsARun(t, reacts);
      RunOn(s, one, rest);
      es := one + rest;
      FiredMore(s, t, Exec(t, rest), Shot(s.rest[0], s.now, s.batch), t.rest);
      assert [s.rest[0]] + s.rest[1..] == s.rest;
    }
  }

  lemma Begun(s: State)
    requires Inv(s) && !s.reading
    ensures Consistent(s.ts) && Consistent(Extract(s.ts, s.now))
    ensures var t := Next(s, BeginRead);
            t.ts == Extract(s.ts, s.now) && t.rest == Due(s.ts, s.now) && t.reading && t.now == s.now && t.shots == s.shots
  {
    ExtractKeeps(s.ts, s.now);
  }

  lemma RearmIsARun(s: State, rearmAt: Time) returns (es: seq<Event>)
    requires Inv(s) && s.reading && s.rest == [] && s.now <= rearmAt
    ensures CanRun(s, es)
    ensures var t := Exec(s, es);
            t.ts == Rearm(s.ts, rearmAt) && !t.reading && t.now == rearmAt && t.shots == s.shots
  {
    var wait := Advance(rearmAt - s.now);
    JustOne(s, wait);
    TimePasses(s, rearmAt - s.now);
    var t := Next(s, wait);
    JustOne(t, EndRead);
    hide Inv, CanRun, Exec;
    RunOn(s, [wait], [EndRead]);
    es := [wait] + [EndRead];
  }

  /** All of handle_read, with what its callbacks add and cancel, is a run: extract, fire each
      due timer and let its callback act, re-arm.  It fires exactly the due timers, in order. */
  lemma HandleReadIsARun(s: State, reacts: TimerId -> seq<Action>, rearmAt: Time) returns (es: seq<Event>)
    requires Inv(s) && !s.reading && TimelyBatch(s.now, Due(s.ts, s.now), reacts)
    requires TimeAfterBatch(s.now, Due(s.ts, s.now), reacts) <= rearmAt
    ensures CanRun(s, es) && Consistent(s.ts)
    ensures var t := Exec(s, es);
            && t.ts == Handled(s.ts, s.now, reacts, rearmAt) && !t.reading && t.now == rearmAt
            && HasFired(s, t, Due(s.ts, s.now))
  {
    Begun(s);
    JustOne(s, BeginRead);
    hide Inv, Next, CanRun, Exec, Due, Extract, Consistent, HasFired, FireAll, TimelyBatch, TimeAfterBatch, Rearm;
    var s1 := Next(s, BeginRead);
    var fire := FireAllIsARun(s1, reacts);
    var rearm := RearmIsARun(Exec(s1, fire), rearmAt);
    RunOn(s1, fire, rearm);
    RunOn(s, [BeginRead], fire + rearm);
    es := [BeginRead] + (fire + rearm);
    SameShots(s, s1, Exec(s1, fire), Exec(s, es), s1.rest);
  }

  lemma SameShots(s: State, s1: State, t1: State, t: State, due: seq<Entry>)
    requires HasFired(s1, t1, due) && s.shots == s1.shots && t.shots == t1.shots
    ensures HasFired(s, t, due)
  {
  }

  // ----- timers fire when they were asked to -----

  /** The expirations that run_at was called with, by the ids it gave out. */
  function Asked(asked: map<TimerId, Time>, s: State, e: Event): map<TimerId, Time> {
    match e
    case Issue(expiration) => asked[s.ts.nextId := expiration]
    case LocalAdd(expiration) => asked[s.ts.nextId := expiration]
    case _ => asked
  }

  ghost function AskedBy(asked: map<TimerId, Time>, s: State, es: seq<Event>): map<TimerId, Time>
    requires Inv(s) && CanRun(s, es)
    decreases |es|
  {
    if es == [] then asked
    else (Preserved(s, es[0]); AskedBy(Asked(asked, s, es[0]), Next(s, es[0]), es[1..]))
  }

  predicate Right(asked: map<TimerId, Time>, x: Entry) {
    x.id in asked && asked[x.id] == x.expiration
  }

  /** Wherever a timer is, it has the expiration that was asked for. */
  ghost predicate Honest(s: State, asked: map<TimerId, Time>) {
    && (forall x :: x in s.issuing ==> Right(asked, x))
    && (forall p :: p in s.posted && p.PostedAdd? ==> Right(asked, p.e))
    && (forall x :: x in s.ts.entries ==> Right(asked, x))
    && (forall x :: x in s.rest ==> Right(asked, x))
    && (forall x :: x in s.shots ==> Right(asked, x.e))
  }

  /** A new id is nowhere yet. */
  lemma NewIdIsNowhere(s: State)
    requires Inv(s)
    ensures forall x :: x in s.issuing ==> x.id != s.ts.nextId
    ensures forall p :: p in s.posted && p.PostedAdd? ==> p.e.id != s.ts.nextId
    ensures forall x :: x in s.ts.entries ==> x.id != s.ts.nextId
    ensures forall x :: x in s.rest ==> x.id != s.ts.nextId
    ensures forall x :: x in s.shots ==> x.e.id != s.ts.nextId
  {
    assert forall x :: x in s.issuing ==> x.id in EntryIds(s.issuing);
    assert forall p :: p in s.posted && p.PostedAdd? ==> p.e.id in QueuedIds(s.posted);
    assert forall x :: x in s.rest ==> x.id in IdsOf(s.rest);
    assert forall x :: x in s.shots ==> x.e.id in ShotIds(s.shots);
  }

  /** A step puts into a container only what another one held, or the timer just asked for. */
  lemma EntriesStep(s: State, e: Event)
    requires Inv(s) && Enabled(s, e)
    ensures forall x :: x in Next(s, e).ts.entries ==>
              || x in s.ts.entries
              || (e.LocalAdd? && x == Entry(e.expiration, s.ts.nextId))
              || (e.RunPosted? && s.posted[0].PostedAdd? && x == s.posted[0].e)
  {
    match e
    case RunPosted =>
      match s.posted[0] {
        case PostedAdd(x) =>
          PostedIsNew(s);
          AddKeeps(s.ts, x, s.now);
        case PostedCancel(id) => CancelTakesOut(s.ts, id, s.now);
      }
    case LocalAdd(expiration) =>
      UnusedId(s.ts);
      AddKeeps(s.ts.(nextId := s.ts.nextId + 1), Entry(expiration, s.ts.nextId), s.now);
    case LocalCancel(id) => CancelTakesOut(s.ts, id, s.now);
    case BeginRead =>
      ExtractKeeps(s.ts, s.now);
      assert forall x :: x in Extract(s.ts, s.now).entries ==> x in Due(s.ts, s.now) + Extract(s.ts, s.now).entries;
    case _ =>
  }

  lemma RestStep(s: State, e: Event)
    requires Inv(s) && Enabled(s, e)
    ensures forall x :: x in Next(s, e).rest ==> x in s.rest || x in s.ts.entries
    ensures forall x :: x in Next(s, e).shots ==> x in s.shots || (e.FireNext? && x.e == s.rest[0])
  {
    if e.BeginRead? {
      ExtractKeeps(s.ts, s.now);
    }
  }

  lemma QueuesStep(s: State, e: Event)
    requires Inv(s) && Enabled(s, e)
    ensures forall x :: x in Next(s, e).issuing ==> x in s.issuing || (e.Issue? && x == Entry(e.expiration, s.ts.nextId))
    ensures forall p :: p in Next(s, e).posted ==> p in s.posted || (e.PostAdd? && p == PostedAdd(e.e)) || p.PostedCancel?
  {
  }

  lemma HonestStep(s: State, e: Event, asked: map<TimerId, Time>)
    requires Inv(s) && Enabled(s, e) && Honest(s, asked)
    ensures Honest(Next(s, e), Asked(asked, s, e))
  {
    NewIdIsNowhere(s);
    EntriesStep(s, e);
    RestStep(s, e);
    QueuesStep(s, e);
    assert e.RunPosted? ==> s.posted[0] in s.posted;
    assert e.FireNext? ==> s.rest[0] in s.rest;
    assert Sorted(s.ts.entries);
    hide Inv, Next, Sorted, Right;
    if e.Issue? || e.LocalAdd? {
      StillRight(asked, s.ts.nextId, e.expiration);
    }
  }

  lemma StillRight(asked: map<TimerId, Time>, id: TimerId, expiration: Time)
    ensures forall x :: Right(asked, x) && x.id != id ==> Right(asked[id := expiration], x)
    ensures Right(asked[id := expiration], Entry(expiration, id))
  {
  }

  /** Over every run, a timer that fires does so with the expiration it was asked for, and not
      before it. */
  lemma {:induction false} FiresAsAsked(s: State, es: seq<Event>, asked: map<TimerId, Time>)
    requires Inv(s) && CanRun(s, es) && Honest(s, asked)
    ensures var t, all := Exec(s, es), AskedBy(asked, s, es);
            && Honest(t, all)
            && forall i :: 0 <= i < |t.shots| ==> t.shots[i].e.id in all && all[t.shots[i].e.id] <= t.shots[i].at
    decreases |es|
  {
    if es == [] {
      assert forall i :: 0 <= i < |s.shots| ==> s.shots[i] in s.shots;
    } else {
      Preserved(s, es[0]);
      HonestStep(s, es[0], asked);
      assert Sorted(s.ts.entries);
      hide Inv, Next, Enabled, Sorted, Honest;
      FiresAsAsked(Next(s, es[0]), es[1..], Asked(asked, s, es[0]));
    }
  }

  // ----- posted adds and cancels run in the order they were posted -----

  function PostedIn(es: seq<Event>): seq<Posted> {
    if es == [] then []
    else
      (match es[0]
       case PostAdd(x) => [PostedAdd(x)]
       case PostCancel(id) => [PostedCancel(id)]
       case _ => []) + PostedIn(es[1..])
  }

  function RunIn(es: seq<Event>): nat {
    if es == [] then 0 else (if es[0].RunPosted? then 1 else 0) + RunIn(es[1..])
  }

  /** What waits after a run is what waited before and was posted since, in order, without the
      first of it, as many as were run; so a cancel posted after its add is run after it. */
  lemma {:induction false} PostedInOrder(s: State, es: seq<Event>)
    requires Inv(s) && CanRun(s, es)
    ensures RunIn(es) <= |s.posted| + |PostedIn(es)|
    ensures Exec(s, es).posted == (s.posted + PostedIn(es))[RunIn(es)..]
    decreases |es|
  {
    if es == [] {
      assert (s.posted + [])[0..] == s.posted;
    } else {
      Preserved(s, es[0]);
      PostedStep(s, es[0]);
      FirstPosted(es);
      assert Sorted(s.ts.entries);
      hide Inv, Next, Enabled, PostedIn, Sorted;
      var t := Next(s, es[0]);
      PostedInOrder(t, es[1..]);
      if es[0].RunPosted? {
        TailShift(s.posted, PostedIn(es[1..]), RunIn(es[1..]));
      } else {
        Regrouped(s.posted, PostedIn([es[0]]), PostedIn(es[1..]));
      }
    }
  }

  lemma FirstPosted(es: seq<Event>)
    requires es != []
    ensures PostedIn(es) == PostedIn([es[0]]) + PostedIn(es[1..])
    ensures es[0].RunPosted? ==> PostedIn(es) == PostedIn(es[1..])
  {
    assert [es[0]][1..] == [];
  }

  lemma TailShift(a: seq<Posted>, p: seq<Posted>, k: nat)
    requires a != [] && k <= |a| - 1 + |p|
    ensures (a[1..] + p)[k..] == (a + p)[k + 1..]
  {
    assert a[1..] + p == (a + p)[1..];
  }

  lemma Regrouped(a: seq<Posted>, x: seq<Posted>, p: seq<Posted>)
    ensures a + x + p == a + (x + p)
  {
  }

  lemma PostedStep(s: State, e: Event)
    requires Inv(s) && Enabled(s, e)
    ensures e.RunPosted? ==> s.posted != [] && Next(s, e).posted == s.posted[1..]
    ensures !e.RunPosted? ==> Next(s, e).posted == s.posted + PostedIn([e])
  {
    assert [e][1..] == [];
  }
}
