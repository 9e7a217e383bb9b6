/**
 The connection table of src/server.cpp.  The main loop accepts and owns the table, every
 connection lives on its own loop, a close there frees the descriptor at once and sends the
 removal back to the main loop, and meanwhile the kernel may hand the same descriptor to a
 newer connection.  A connection object is known by a serial number, its shared_ptr
 identity.
 */
module TcpServer {
  type Fd = nat
  type ConnId = nat

  /** Which loop a connection lives on.  With no I/O threads it is the main loop, and
      everything posted to it runs at once. */
  datatype Home = Main | Sub(index: nat)

  /** One answer of accept(2), together with whether the descriptor could be made non-blocking. */
  datatype Answer = Accepted(fd: Fd, nonBlocking: bool) | Interrupted | WouldBlock | Failed

  /** The descriptors that one call of handle_accept stores, in order. */
  function Admitted(answers: seq<Answer>): seq<Fd> {
    if answers == [] then []
    else match answers[0]
      case Accepted(fd, nonBlocking) => (if nonBlocking then [fd] else []) + Admitted(answers[1..])
      case Interrupted => Admitted(answers[1..])
      case WouldBlock => []
      case Failed => []
  }

  /** Does the accept loop go on after this answer? */
  predicate GoesOn(a: Answer) {
    a.Accepted? || a == Interrupted
  }

  /** The non-blocking descriptors among the answers, in order. */
  function NonBlocking(answers: seq<Answer>): seq<Fd> {
    if answers == [] then []
    else
      var last := answers[|answers| - 1];
      NonBlocking(answers[..|answers| - 1]) + if last.Accepted? && last.nonBlocking then [last.fd] else []
  }

  lemma {:induction false} AdmittedSplit(a: seq<Answer>, b: seq<Answer>)
    requires forall i :: 0 <= i < |a| ==> GoesOn(a[i])
    ensures Admitted(a + b) == Admitted(a) + Admitted(b)
    decreases |a|
  {
    if a == [] {
      assert a + b == b;
    } else {
      assert (a + b)[1..] == a[1..] + b;
      AdmittedSplit(a[1..], b);
    }
  }

  lemma {:induction false} AdmittedAll(a: seq<Answer>)
    requires forall i :: 0 <= i < |a| ==> GoesOn(a[i])
    ensures Admitted(a) == NonBlocking(a)
    decreases |a|
  {
    if a == [] {
    } else {
      var front, last := a[..|a| - 1], a[|a| - 1];
      AdmittedAll(front);
      AdmittedSplit(front, [last]);
      assert a == front + [last] && [last][1..] == [];
      assert GoesOn(last);
    }
  }

  /** One call stores exactly the non-blocking descriptors that accept(2) hands out before it
      first answers EAGAIN or an error, in order. */
  lemma AdmittedExactly(answers: seq<Answer>, n: nat)
    requires n <= |answers| && (forall i :: 0 <= i < n ==> GoesOn(answers[i]))
    requires n < |answers| ==> !GoesOn(answers[n])
    ensures Admitted(answers) == NonBlocking(answers[..n])
  {
    AdmittedAll(answers[..n]);
    AdmittedSplit(answers[..n], answers[n..]);
    assert answers == answers[..n] + answers[n..];
  }

  /** The table after connections numbered from `first` have been stored under fds. */
  function Stored(table: map<Fd, ConnId>, first: ConnId, fds: seq<Fd>): map<Fd, ConnId>
    decreases |fds|
  {
    if fds == [] then table else Stored(table[fds[0] := first], first + 1, fds[1..])
  }

  function Removed(table: map<Fd, ConnId>, fd: Fd, c: ConnId): map<Fd, ConnId> {
    if fd in table && table[fd] == c then table - {fd} else table
  }

  class TcpServer {
    var connections: map<Fd, ConnId>
    var nextConn: ConnId

    constructor ()
      ensures connections == map[] && nextConn == 0
    {
      connections, nextConn := map[], 0;
    }

    /** The accept loop: goes on until EAGAIN or an error. */
    method HandleAccept(answers: seq<Answer>) returns (fds: seq<Fd>)
      modifies this
      ensures fds == Admitted(answers)
      ensures connections == Stored(old(connections), old(nextConn), fds)
      ensures nextConn == old(nextConn) + |fds|
    {
      fds := [];
      var i := 0;
      while i < |answers|
        invariant i <= |answers|
        invariant Admitted(answers) == fds + Admitted(answers[i..])
        invariant connections == Stored(old(connections), old(nextConn), fds)
        invariant nextConn == old(nextConn) + |fds|
      {
        assert answers[i..][1..] == answers[i + 1..];
        match answers[i] {
          case WouldBlock => return;
          case Failed => return;
          case Interrupted =>
          case Accepted(fd, nonBlocking) =>
            if nonBlocking {
              StoredSnoc(old(connections), old(nextConn), fds, fd);
              connections := connections[fd := nextConn];
              nextConn := nextConn + 1;
              fds := fds + [fd];
            }
        }
        i := i + 1;
      }
    }

    /** Erases only the very connection it is about; tells whether it did, that is, whether
        the disconnect callback is sent to the connection's loop. */
    method RemoveConnectionInLoop(fd: Fd, conn: ConnId) returns (notify: bool)
      modifies this`connections
      ensures connections == Removed(old(connections), fd, conn)
      ensures notify <==> fd in old(connections) && old(connections)[fd] == conn
    {
      if fd !in connections {
        return false;
      }
      if connections[fd] != conn {
        return false;
      }
      connections := connections - {fd};
      return true;
    }
  }

  lemma {:induction false} StoredSnoc(table: map<Fd, ConnId>, first: ConnId, fds: seq<Fd>, fd: Fd)
    ensures Stored(table, first, fds + [fd]) == Stored(table, first, fds)[fd := first + |fds|]
    decreases |fds|
  {
    if fds == [] {
      assert fds + [fd] == [fd];
      assert [fd][1..] == [];
    } else {
      assert (fds + [fd])[1..] == fds[1..] + [fd];
      StoredSnoc(table[fds[0] := first], first + 1, fds[1..], fd);
    }
  }

  // ----- interleaved loops -----

  /** The life of a connection object; history, tied to the containers by `Inv`. */
  datatype Stage =
    | Starting      // its "established" functor is queued on its loop
    | Open          // established callback run, descriptor open
    | Closing       // descriptor closed, removal not posted yet
    | Removing      // removal queued on the main loop
    | Ending        // erased from the table, disconnect functor queued on its loop
    | Gone          // disconnect callback run
    | Replaced      // its removal found a newer connection, or none, under its descriptor

  datatype Callback = Up(c: ConnId) | Down(c: ConnId)

  /** Queued functors may run in any order here, which covers the order of every loop. */
  datatype State = State(
    table: map<Fd, ConnId>,            // connections_
    holder: map<Fd, ConnId>,           // the kernel: open descriptors and whose they are
    fdOf: seq<Fd>,                     // conn->fd(), by serial number
    home: seq<Home>,
    starts: set<ConnId>,               // "established" functors queued on sub-loops
    removals: set<ConnId>,             // removal functors queued on the main loop
    ends: set<ConnId>,                 // disconnect functors queued on sub-loops
    callbacks: seq<Callback>,          // history
    stage: seq<Stage>)                 // history

  datatype Event =
    | Accept(fd: Fd, on: Home)         // main thread: accept, store, post or run "established"
    | RunStart(c: ConnId)              // a sub-loop runs an "established" functor
    | CloseFd(c: ConnId)               // the connection's loop: close() up to ::close(fd)
    | PostRemoval(c: ConnId)           // the connection's loop: its close callback posts
    | RunRemoval(c: ConnId)            // main thread: remove_connection_in_loop
    | RunEnd(c: ConnId)                // a sub-loop runs a disconnect functor
    | CloseOnMain(c: ConnId)           // a connection that lives on the main loop: all at once

  const START := State(map[], map[], [], [], {}, {}, {}, [], [])

  predicate At(s: State, c: ConnId, stage: Stage) {
    c < |s.stage| && s.stage[c] == stage
  }

  predicate Enabled(s: State, e: Event) {
    && |s.fdOf| == |s.home| == |s.stage|
    && match e
       case Accept(fd, _) => fd !in s.holder
       case RunStart(c) => c in s.starts && c < |s.stage|
       case CloseFd(c) => At(s, c, Open) && s.home[c].Sub?
       case PostRemoval(c) => At(s, c, Closing)
       case RunRemoval(c) => c in s.removals && c < |s.stage|
       case RunEnd(c) => c in s.ends && c < |s.stage|
       case CloseOnMain(c) => At(s, c, Open) && s.home[c] == Main
  }

  predicate Current(table: map<Fd, ConnId>, fdOf: seq<Fd>, c: ConnId)
    requires c < |fdOf|
  {
    fdOf[c] in table && table[fdOf[c]] == c
  }

  function Next(s: State, e: Event): State
    requires Enabled(s, e)
  {
    match e
    case Accept(fd, on) =>
      var c := |s.fdOf|;
      var t := s.(table := s.table[fd := c], holder := s.holder[fd := c], fdOf := s.fdOf + [fd], home := s.home + [on]);
      if on == Main then t.(callbacks := s.callbacks + [Up(c)], stage := s.stage + [Open])
      else t.(starts := s.starts + {c}, stage := s.stage + [Starting])
    case RunStart(c) =>
      s.(starts := s.starts - {c}, callbacks := s.callbacks + [Up(c)], stage := s.stage[c := Open])
    case CloseFd(c) => s.(holder := s.holder - {s.fdOf[c]}, stage := s.stage[c := Closing])
    case PostRemoval(c) => s.(removals := s.removals + {c}, stage := s.stage[c := Removing])
    case RunRemoval(c) =>
      var t := s.(removals := s.removals - {c}, table := Removed(s.table, s.fdOf[c], c));
      if Current(s.table, s.fdOf, c) then t.(ends := s.ends + {c}, stage := s.stage[c := Ending])
      else t.(stage := s.stage[c := Replaced])
    case RunEnd(c) =>
      s.(ends := s.ends - {c}, callbacks := s.callbacks + [Down(c)], stage := s.stage[c := Gone])
    case CloseOnMain(c) =>
      var t := s.(holder := s.holder - {s.fdOf[c]}, table := Removed(s.table, s.fdOf[c], c));
      if Current(s.table, s.fdOf, c) then t.(callbacks := s.callbacks + [Down(c)], stage := s.stage[c := Gone])
      else t.(stage := s.stage[c := Replaced])
  }

  predicate CanRun(s: State, es: seq<Event>)
    decreases |es|
  {
    es == [] || (Enabled(s, es[0]) && CanRun(Next(s, es[0]), es[1..]))
  }

  function Exec(s: State, es: seq<Event>): State
    requires CanRun(s, es)
    decreases |es|
  {
    if es == [] then s else Exec(Next(s, es[0]), es[1..])
  }

  // ----- the invariant -----

  predicate Alive(stage: Stage) {
    stage in {Starting, Open}
  }

  /** Not erased and not found replaced yet. */
  predicate Listed(stage: Stage) {
    stage in {Starting, Open, Closing, Removing}
  }

  /** An open descriptor belongs to exactly one connection that is starting or open, and that
      is the newest one to have been given the descriptor. */
  ghost predicate Held(holder: map<Fd, ConnId>, fdOf: seq<Fd>, stage: seq<Stage>)
    requires |fdOf| == |stage|
  {
    && (forall fd :: fd in holder ==> holder[fd] < |fdOf| && fdOf[holder[fd]] == fd && Alive(stage[holder[fd]]))
    && (forall c :: 0 <= c < |fdOf| && Alive(stage[c]) ==>
          fdOf[c] in holder && holder[fdOf[c]] == c && Newest(fdOf, c))
  }

  /** No newer connection was ever given this one's descriptor. */
  ghost predicate Newest(fdOf: seq<Fd>, c: ConnId)
    requires c < |fdOf|
  {
    forall d :: c < d < |fdOf| ==> fdOf[d] != fdOf[c]
  }

  /** Until its removal has run, a connection is in the table under its descriptor exactly
      when no newer connection was given that descriptor. */
  ghost predicate TableExact(table: map<Fd, ConnId>, fdOf: seq<Fd>, stage: seq<Stage>)
    requires |fdOf| == |stage|
  {
    && (forall fd :: fd in table ==> table[fd] < |fdOf| && fdOf[table[fd]] == fd)
    && (forall c :: 0 <= c < |fdOf| && Listed(stage[c]) ==> (Current(table, fdOf, c) <==> Newest(fdOf, c)))
  }

  /** A functor is queued exactly for the connections at the stage that waits for it. */
  ghost predicate Queued(waiting: set<ConnId>, stage: seq<Stage>, at: Stage) {
    forall c: ConnId :: c in waiting <==> c < |stage| && stage[c] == at
  }

  /** Each callback runs at most once, and a disconnect callback only after the established one. */
  ghost predicate CallbackOrder(callbacks: seq<Callback>, stage: seq<Stage>) {
    && (forall c: ConnId :: Up(c) in callbacks <==> c < |stage| && stage[c] != Starting)
    && (forall c: ConnId :: Down(c) in callbacks <==> c < |stage| && stage[c] == Gone)
    && (forall i, j :: 0 <= i < j < |callbacks| ==> callbacks[i] != callbacks[j])
    && (forall i :: 0 <= i < |callbacks| && callbacks[i].Down? ==> Up(callbacks[i].c) in callbacks[..i])
  }

  ghost predicate Inv(s: State) {
    && |s.fdOf| == |s.home| == |s.stage|
    && Held(s.holder, s.fdOf, s.stage)
    && TableExact(s.table, s.fdOf, s.stage)
    && Queued(s.starts, s.stage, Starting)
    && Queued(s.removals, s.stage, Removing)
    && Queued(s.ends, s.stage, Ending)
    && CallbackOrder(s.callbacks, s.stage)
  }

  lemma HeldAccept(holder: map<Fd, ConnId>, fdOf: seq<Fd>, stage: seq<Stage>, fd: Fd, st: Stage)
    requires |fdOf| == |stage| && Held(holder, fdOf, stage) && fd !in holder && Alive(st)
    ensures Held(holder[fd := |fdOf|], fdOf + [fd], stage + [st])
  {
    var fds := fdOf + [fd];
    forall c | 0 <= c < |fdOf| && Alive(stage[c])
      ensures Newest(fds, c)
    {
      assert fdOf[c] != fd;
    }
  }

  lemma HeldClose(holder: map<Fd, ConnId>, fdOf: seq<Fd>, stage: seq<Stage>, c: ConnId, st: Stage)
    requires |fdOf| == |stage| && Held(holder, fdOf, stage) && c < |fdOf| && Alive(stage[c]) && !Alive(st)
    ensures Held(holder - {fdOf[c]}, fdOf, stage[c := st])
  {
  }

  lemma HeldKept(holder: map<Fd, ConnId>, fdOf: seq<Fd>, stage: seq<Stage>, c: ConnId, st: Stage)
    requires |fdOf| == |stage| && Held(holder, fdOf, stage) && c < |fdOf| && (Alive(stage[c]) <==> Alive(st))
    ensures Held(holder, fdOf, stage[c := st])
  {
  }

  lemma TableAccept(table: map<Fd, ConnId>, fdOf: seq<Fd>, stage: seq<Stage>, fd: Fd, st: Stage)
    requires |fdOf| == |stage| && TableExact(table, fdOf, stage)
    ensures TableExact(table[fd := |fdOf|], fdOf + [fd], stage + [st])
  {
    var fds := fdOf + [fd];
    forall c | 0 <= c < |fdOf|
      ensures Newest(fds, c) <==> Newest(fdOf, c) && fdOf[c] != fd
    {
      assert fds[|fdOf|] == fd && fds[c] == fdOf[c];
      assert forall d :: c < d < |fdOf| ==> fds[d] == fdOf[d];
    }
  }

  lemma TableKept(table: map<Fd, ConnId>, fdOf: seq<Fd>, stage: seq<Stage>, c: ConnId, st: Stage)
    requires |fdOf| == |stage| && TableExact(table, fdOf, stage) && c < |fdOf| && Listed(stage[c])
    ensures TableExact(table, fdOf, stage[c := st])
  {
  }

  lemma TableRemove(table: map<Fd, ConnId>, fdOf: seq<Fd>, stage: seq<Stage>, c: ConnId, st: Stage)
    requires |fdOf| == |stage| && TableExact(table, fdOf, stage) && c < |fdOf| && Listed(stage[c]) && !Listed(st)
    ensures TableExact(Removed(table, fdOf[c], c), fdOf, stage[c := st])
  {
  }

  lemma QueuedMove(waiting: set<ConnId>, stage: seq<Stage>, at: Stage, c: ConnId, st: Stage)
    requires Queued(waiting, stage, at) && c < |stage|
    ensures Queued(if st == at then waiting + {c} else waiting - {c}, stage[c := st], at)
    ensures st != at && stage[c] != at ==> waiting - {c} == waiting
  {
  }

  lemma QueuedNew(waiting: set<ConnId>, stage: seq<Stage>, at: Stage, st: Stage)
    requires Queued(waiting, stage, at)
    ensures Queued(if st == at then waiting + {|stage|} else waiting, stage + [st], at)
  {
  }

  lemma CallbackKept(callbacks: seq<Callback>, stage: seq<Stage>, c: ConnId, st: Stage)
    requires CallbackOrder(callbacks, stage) && c < |stage|
    requires stage[c] !in {Starting, Gone} && st !in {Starting, Gone}
    ensures CallbackOrder(callbacks, stage[c := st])
  {
  }

  lemma CallbackUp(callbacks: seq<Callback>, stage: seq<Stage>, more: seq<Stage>, c: ConnId)
    requires CallbackOrder(callbacks, stage)
    requires (c < |stage| && stage[c] == Starting && more == stage[c := Open]) || (c == |stage| && more == stage + [Open])
    ensures CallbackOrder(callbacks + [Up(c)], more)
  {
    var all := callbacks + [Up(c)];
    assert forall x :: x in all <==> x in callbacks || x == Up(c);
    assert forall i :: 0 <= i < |callbacks| ==> all[..i] == callbacks[..i] && callbacks[i] in callbacks;
  }

  lemma CallbackDown(callbacks: seq<Callback>, stage: seq<Stage>, c: ConnId)
    requires CallbackOrder(callbacks, stage) && c < |stage| && stage[c] !in {Starting, Gone}
    ensures CallbackOrder(callbacks + [Down(c)], stage[c := Gone])
  {
    var all := callbacks + [Down(c)];
    assert forall x :: x in all <==> x in callbacks || x == Down(c);
    assert forall i :: 0 <= i < |callbacks| ==> all[..i] == callbacks[..i] && callbacks[i] in callbacks;
    assert all[..|callbacks|] == callbacks;
  }

  lemma CallbackNew(callbacks: seq<Callback>, stage: seq<Stage>)
    requires CallbackOrder(callbacks, stage)
    ensures CallbackOrder(callbacks, stage + [Starting])
  {
  }

  lemma QueuesMoved(s: State, c: ConnId, st: Stage)
    requires Inv(s) && c < |s.stage|
    ensures Queued(if st == Starting then s.starts + {c} else s.starts - {c}, s.stage[c := st], Starting)
    ensures Queued(if st == Removing then s.removals + {c} else s.removals - {c}, s.stage[c := st], Removing)
    ensures Queued(if st == Ending then s.ends + {c} else s.ends - {c}, s.stage[c := st], Ending)
    ensures s.stage[c] != Starting ==> s.starts - {c} == s.starts
    ensures s.stage[c] != Removing ==> s.removals - {c} == s.removals
    ensures s.stage[c] != Ending ==> s.ends - {c} == s.ends
    ensures c in s.starts ==> s.stage[c] == Starting
    ensures c in s.removals ==> s.stage[c] == Removing
    ensures c in s.ends ==> s.stage[c] == Ending
  {
    QueuedMove(s.starts, s.stage, Starting, c, st);
    QueuedMove(s.removals, s.stage, Removing, c, st);
    QueuedMove(s.ends, s.stage, Ending, c, st);
  }

  lemma AcceptStep(s: State, fd: Fd, on: Home)
    requires Inv(s) && Enabled(s, Accept(fd, on))
    ensures Inv(Next(s, Accept(fd, on)))
  {
    var st := if on == Main then Open else Starting;
    HeldAccept(s.holder, s.fdOf, s.stage, fd, st);
    TableAccept(s.table, s.fdOf, s.stage, fd, st);
    QueuedNew(s.starts, s.stage, Starting, st);
    QueuedNew(s.removals, s.stage, Removing, st);
    QueuedNew(s.ends, s.stage, Ending, st);
    if on == Main {
      CallbackUp(s.callbacks, s.stage, s.stage + [Open], |s.stage|);
    } else {
      CallbackNew(s.callbacks, s.stage);
    }
    hide Held, TableExact, Queued, CallbackOrder, Alive;
  }

  lemma Preserved(s: State, e: Event)
    requires Inv(s) && Enabled(s, e)
    ensures Inv(Next(s, e))
  {
    hide Held, TableExact, Queued, CallbackOrder, Current, Removed;
    match e
    case Accept(fd, on) => AcceptStep(s, fd, on);
    case RunStart(c) =>
      QueuesMoved(s, c, Open);
      HeldKept(s.holder, s.fdOf, s.stage, c, Open);
      TableKept(s.table, s.fdOf, s.stage, c, Open);
      CallbackUp(s.callbacks, s.stage, s.stage[c := Open], c);
    case CloseFd(c) =>
      QueuesMoved(s, c, Closing);
      HeldClose(s.holder, s.fdOf, s.stage, c, Closing);
      TableKept(s.table, s.fdOf, s.stage, c, Closing);
      CallbackKept(s.callbacks, s.stage, c, Closing);
    case PostRemoval(c) =>
      QueuesMoved(s, c, Removing);
      HeldKept(s.holder, s.fdOf, s.stage, c, Removing);
      TableKept(s.table, s.fdOf, s.stage, c, Removing);
      CallbackKept(s.callbacks, s.stage, c, Removing);
    case RunRemoval(c) =>
      var st := if Current(s.table, s.fdOf, c) then Ending else Replaced;
      QueuesMoved(s, c, st);
      HeldKept(s.holder, s.fdOf, s.stage, c, st);
      TableRemove(s.table, s.fdOf, s.stage, c, st);
      CallbackKept(s.callbacks, s.stage, c, st);
    case RunEnd(c) =>
      QueuesMoved(s, c, Gone);
      HeldKept(s.holder, s.fdOf, s.stage, c, Gone);
      TableUnlisted(s.table, s.fdOf, s.stage, c, Gone);
      CallbackDown(s.callbacks, s.stage, c);
    case CloseOnMain(c) =>
      var st := if Current(s.table, s.fdOf, c) then Gone else Replaced;
      QueuesMoved(s, c, st);
      HeldClose(s.holder, s.fdOf, s.stage, c, st);
      TableRemove(s.table, s.fdOf, s.stage, c, st);
      if st == Gone {
        CallbackDown(s.callbacks, s.stage, c);
      } else {
        CallbackKept(s.callbacks, s.stage, c, st);
      }
  }

  lemma TableUnlisted(table: map<Fd, ConnId>, fdOf: seq<Fd>, stage: seq<Stage>, c: ConnId, st: Stage)
    requires |fdOf| == |stage| && TableExact(table, fdOf, stage) && c < |fdOf| && !Listed(st)
    ensures TableExact(table, fdOf, stage[c := st])
  {
  }

  lemma {:induction false} RunFrom(s: State, es: seq<Event>)
    requires Inv(s) && CanRun(s, es)
    ensures Inv(Exec(s, es))
    decreases |es|
  {
    if es == [] {
    } else {
      hide Inv, Next, Enabled;
      Preserved(s, es[0]);
      RunFrom(Next(s, es[0]), es[1..]);
    }
  }

  /** Over every interleaving of accepts, closes on other loops and delayed removals: an open
      descriptor is stored under its connection; each callback runs at most once and the
      disconnect callback only after the established one. */
  lemma EveryRun(es: seq<Event>)
    requires CanRun(START, es)
    ensures var s := Exec(START, es);
            && Inv(s)
            && (forall fd :: fd in s.holder ==> fd in s.table && s.table[fd] == s.holder[fd])
  {
    hide CanRun, Exec;
    assert Inv(START);
    RunFrom(START, es);
    OpenIsStored(Exec(START, es));
  }

  lemma OpenIsStored(s: State)
    requires Inv(s)
    ensures forall fd :: fd in s.holder ==> fd in s.table && s.table[fd] == s.holder[fd]
  {
    forall fd | fd in s.holder
      ensures fd in s.table && s.table[fd] == s.holder[fd]
    {
      assert Listed(s.stage[s.holder[fd]]) && Newest(s.fdOf, s.holder[fd]);
      assert Current(s.table, s.fdOf, s.holder[fd]);
    }
  }

  /** A removal touches no entry but its own connection's, and it skips (and with it the
      disconnect callback) exactly when the descriptor has since been given to a newer one. */
  lemma RemovalSkipsIffReused(s: State, c: ConnId)
    requires Inv(s) && Enabled(s, RunRemoval(c))
    ensures var t := Next(s, RunRemoval(c));
            && (forall fd :: fd in s.table && s.table[fd] != c ==> fd in t.table && t.table[fd] == s.table[fd])
            && (t.stage[c] == Replaced <==> exists d :: c < d < |s.fdOf| && s.fdOf[d] == s.fdOf[c])
            && (c in t.ends <==> t.stage[c] == Ending) && (t.stage[c] in {Ending, Replaced})
  {
    assert s.stage[c] == Removing && Listed(s.stage[c]);
    assert Current(s.table, s.fdOf, c) <==> Newest(s.fdOf, c);
    assert c !in s.ends;
  }

  /** A skipped connection never gets its disconnect callback. */
  lemma {:induction false} SkippedForGood(s: State, es: seq<Event>, c: ConnId)
    requires Inv(s) && CanRun(s, es) && At(s, c, Replaced)
    ensures At(Exec(s, es), c, Replaced) && Down(c) !in Exec(s, es).callbacks
    decreases |es|
  {
    if es == [] {
    } else {
      Preserved(s, es[0]);
      ReplacedStays(s, es[0], c);
      hide Inv, Next, Enabled;
      SkippedForGood(Next(s, es[0]), es[1..], c);
    }
  }

  lemma ReplacedStays(s: State, e: Event, c: ConnId)
    requires Inv(s) && Enabled(s, e) && At(s, c, Replaced)
    ensures At(Next(s, e), c, Replaced)
  {
    hide Held, TableExact, CallbackOrder;
  }

  lemma OneMore(s: State, e: Event, es: seq<Event>)
    requires Enabled(s, e) && CanRun(Next(s, e), es)
    ensures CanRun(s, [e] + es) && Exec(s, [e] + es) == Exec(Next(s, e), es)
  {
    hide Enabled, Next;
    assert ([e] + es)[1..] == es;
  }

  /** From the start: descriptor 5 is closed and accepted again before the removal of its first
      connection is posted; the removal skips, and the first connection never hears of its end. */
  lemma ReuseLosesTheDisconnect() returns (es: seq<Event>)
    ensures CanRun(START, es) && At(Exec(START, es), 0, Replaced)
    ensures Up(0) in Exec(START, es).callbacks && Down(0) !in Exec(START, es).callbacks
    ensures 5 in Exec(START, es).table && Exec(START, es).table[5] == 1
  {
    var accept := Accept(5, Sub(0));
    var s1 := Next(START, accept);
    assert s1.starts == {0} && s1.holder == map[5 := 0];
    var s2 := Next(s1, RunStart(0));
    assert s2.stage == [Open] && s2.callbacks == [Up(0)];
    var s3 := Next(s2, CloseFd(0));
    assert s3.stage == [Closing] && s3.holder == map[];
    var s4 := Next(s3, accept);
    assert s4.stage == [Closing, Starting] && s4.table == map[5 := 1] && s4.fdOf == [5, 5];
    var s5 := Next(s4, PostRemoval(0));
    assert s5.stage == [Removing, Starting] && s5.removals == {0};
    var s6 := Next(s5, RunRemoval(0));
    assert s6.stage == [Replaced, Starting] && s6.callbacks == [Up(0)] && s6.table == map[5 := 1];
    hide Enabled, Next;
    es := [];
    OneMore(s5, RunRemoval(0), es);
    es := [RunRemoval(0)] + es;
    OneMore(s4, PostRemoval(0), es);
    es := [PostRemoval(0)] + es;
    OneMore(s3, accept, es);
    es := [accept] + es;
    OneMore(s2, CloseFd(0), es);
    es := [CloseFd(0)] + es;
    OneMore(s1, RunStart(0), es);
    es := [RunStart(0)] + es;
    OneMore(START, accept, es);
    es := [accept] + es;
  }

  /** The accepts of one call of handle_accept, each given to some loop. */
  function Accepts(fds: seq<Fd>, homes: seq<Home>): seq<Event>
    requires |homes| == |fds|
  {
    if fds == [] then [] else [Accept(fds[0], homes[0])] + Accepts(fds[1..], homes[1..])
  }

  /** They leave the table and the numbering as HandleAccept does. */
  lemma {:induction false} AcceptsAsStored(s: State, fds: seq<Fd>, homes: seq<Home>)
    requires |homes| == |fds| && CanRun(s, Accepts(fds, homes))
    ensures var t := Exec(s, Accepts(fds, homes));
            t.table == Stored(s.table, |s.fdOf|, fds) && |t.fdOf| == |s.fdOf| + |fds|
    decreases |fds|
  {
    if fds == [] {
    } else {
      var t := Next(s, Accept(fds[0], homes[0]));
      assert Accepts(fds, homes)[1..] == Accepts(fds[1..], homes[1..]);
      assert t.table == s.table[fds[0] := |s.fdOf|] && |t.fdOf| == |s.fdOf| + 1;
      hide Next, Enabled;
      AcceptsAsStored(t, fds[1..], homes[1..]);
    }
  }
}
