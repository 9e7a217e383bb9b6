/**
 The reconnecting client of src/tcp_client.cpp.  Sockets are numbered in the order of their
 creation.  What the kernel answers and what the user's connection callback does while it
 runs (it may call connect and disconnect, which then execute at once) is given from
 outside as a finite script.
 */
module TcpClient {
  import opened Bytes

  type Socket = nat

  /** Milliseconds of the steady clock. */
  type Time = nat

  datatype Phase = Disconnected | Connecting | Connected | Retrying

  /** How one attempt goes: no socket, no non-blocking mode, connect refused at once, connect
      under way, or connect done at once with the given SO_ERROR outcome. */
  datatype Attempt = NoSocket | NotNonBlocking | Refused | InProgress | AtOnce(ok: bool)

  /** A call made by the user's callback, with how it goes and what the callback then does. */
  datatype Call = Connect(attempt: Attempt, reacts: seq<Call>) | Disconnect(reacts: seq<Call>)

  const INITIAL_BACKOFF := 500
  const MAX_BACKOFF := 30 * 1000

  datatype Client = Client(
    phase: Phase,
    retryEnabled: bool,
    connecting: Option<Socket>,     // connecting_fd_
    connection: Option<Socket>,     // the socket that connection_ owns
    backoff: nat,
    now: Time,                      // the clock
    timers: seq<Time>,         // when the retry timers not yet fired are due, stale ones included
    due: Time,                      // history: when the timer of the last scheduled retry is due
    attempts: seq<Time>,            // history: when start_connect set out to make a socket
    created: nat,                   // history: sockets created so far
    closed: set<Socket>,            // history: sockets closed
    waits: seq<nat>)                // history: delays of the retries since the last reset

  const IDLE := Client(Disconnected, false, None, None, 0, 0, [], 0, [], 0, {}, [])

  function Pow2(n: nat): nat {
    if n == 0 then 1 else 2 * Pow2(n - 1)
  }

  /** The delay of the n-th consecutive retry. */
  function Delay(n: nat): nat {
    if INITIAL_BACKOFF * Pow2(n) < MAX_BACKOFF then INITIAL_BACKOFF * Pow2(n) else MAX_BACKOFF
  }

  /** Every socket is exactly one of closed, connecting, or owned by the connection. */
  ghost predicate Sockets(c: Client) {
    && (forall x: Socket :: x in c.closed || c.connecting == Some(x) || c.connection == Some(x) <==> x < c.created)
    && (c.connecting.Some? ==> c.connecting.value !in c.closed && c.connecting != c.connection)
    && (c.connection.Some? ==> c.connection.value !in c.closed)
  }

  ghost predicate Backoff(c: Client) {
    && (forall n :: 0 <= n < |c.waits| ==> c.waits[n] == Delay(n))
    && (c.retryEnabled ==> c.backoff == Delay(|c.waits|))
  }

  /** No attempt under way. */
  ghost predicate Settled(c: Client) {
    Sockets(c) && Backoff(c) && c.connecting == None
  }

  /** No attempt and no connection: the state in which an attempt may start. */
  ghost predicate Bare(c: Client) {
    Settled(c) && c.connection == None
  }

  /** The timer of the scheduled retry is pending, and was set no later than now. */
  ghost predicate RetryPending(c: Client) {
    c.due in c.timers && c.waits != [] && c.due <= c.now + c.waits[|c.waits| - 1]
  }

  /** What holds between any two steps. */
  ghost predicate Good(c: Client) {
    && Sockets(c) && Backoff(c)
    && (c.phase == Connecting <==> c.connecting.Some?)
    && (c.phase == Connected <==> c.connection.Some?)
    && (c.retryEnabled <==> c.phase != Disconnected)
    && (c.phase == Retrying ==> RetryPending(c))
  }

  lemma DelayDoubles(n: nat)
    ensures Delay(n) > 0
    ensures Delay(n + 1) == if Delay(n) * 2 < MAX_BACKOFF then Delay(n) * 2 else MAX_BACKOFF
  {
    assert Pow2(n + 1) == 2 * Pow2(n);
    PowPositive(n);
  }

  lemma {:induction false} PowPositive(n: nat)
    ensures Pow2(n) >= 1
  {
    if n == 0 {
    } else {
      PowPositive(n - 1);
    }
  }

  /** schedule_retry. */
  function RetryScheduled(c: Client): (r: Client)
    requires Settled(c)
    ensures c.connection == None ==> Good(r)
    ensures r.now == c.now && r.attempts == c.attempts && r.created == c.created
    ensures r.retryEnabled == c.retryEnabled && r.connection == c.connection
    ensures c.retryEnabled ==>
            var wait := Delay(|c.waits|);
            && r.phase == Retrying && r.waits == c.waits + [wait] && r.due == c.now + wait
            && r.timers == c.timers + [c.now + wait]
    ensures !c.retryEnabled ==> r == c.(phase := Disconnected)
  {
    if !c.retryEnabled then
      c.(phase := Disconnected)
    else
      DelayDoubles(|c.waits|);
      var wait := if c.backoff == 0 then INITIAL_BACKOFF else c.backoff;
      c.(phase := Retrying, timers := c.timers + [c.now + wait], due := c.now + wait, waits := c.waits + [wait],
         backoff := if wait * 2 < MAX_BACKOFF then wait * 2 else MAX_BACKOFF)
  }

  function CreateSocket(c: Client): Client {
    c.(created := c.created + 1)
  }

  function CloseSocket(c: Client, x: Socket): Client {
    c.(closed := c.closed + {x})
  }

  /** Time stands still and no attempt is forgotten. */
  predicate SameInstant(c: Client, r: Client) {
    r.now == c.now && c.attempts <= r.attempts
  }

  /** start_connect. */
  function ConnectStarted(c: Client, attempt: Attempt, reacts: seq<Call>): (r: Client)
    requires Bare(c)
    ensures Good(r) && r.now == c.now
    ensures !c.retryEnabled ==> r == c.(phase := Disconnected)
    ensures c.retryEnabled ==> c.attempts + [c.now] <= r.attempts
    decreases reacts, 3
  {
    if !c.retryEnabled then
      c.(phase := Disconnected)
    else
      var x, d := c.created, c.(attempts := c.attempts + [c.now]);
      match attempt
      case NoSocket => RetryScheduled(d)
      case NotNonBlocking => RetryScheduled(CloseSocket(CreateSocket(d), x))
      case Refused => RetryScheduled(CloseSocket(CreateSocket(d), x))
      case InProgress => CreateSocket(d).(connecting := Some(x), phase := Connecting)
      case AtOnce(ok) => HandshakeFinished(CreateSocket(d).(connecting := Some(x), phase := Connecting), ok, reacts)
  }

  /** handle_connect_writable.  Called without a connecting socket it only schedules a retry,
      which does harm exactly when the client is connected. */
  function HandshakeFinished(c: Client, ok: bool, reacts: seq<Call>): (r: Client)
    requires Good(c)
    ensures Good(r) <==> c.phase != Connected
    ensures SameInstant(c, r)
    ensures c.connecting.None? && c.retryEnabled ==>
            r.phase == Retrying && r.timers == c.timers + [c.now + Delay(|c.waits|)] && r.attempts == c.attempts
    decreases reacts, 2
  {
    if c.connecting.None? then
      RetryScheduled(c)
    else
      var x := c.connecting.value;
      var d := c.(connecting := None);
      if !ok then
        RetryScheduled(CloseSocket(d, x))
      else
        CallsMade(d.(phase := Connected, backoff := INITIAL_BACKOFF, waits := [], connection := Some(x)), reacts)
  }

  /** The calls of a callback, each executed at once. */
  function CallsMade(c: Client, calls: seq<Call>): (r: Client)
    requires Good(c)
    ensures Good(r) && SameInstant(c, r)
    decreases calls, 0
  {
    if calls == [] then c
    else
      match calls[0]
      case Connect(attempt, reacts) => CallsMade(AfterConnect(c, attempt, reacts), calls[1..])
      case Disconnect(reacts) => CallsMade(AfterDisconnect(c, reacts), calls[1..])
  }

  /** connect_in_loop: an attempt at this very instant, unless one is under way or done. */
  function AfterConnect(c: Client, attempt: Attempt, reacts: seq<Call>): (r: Client)
    requires Good(c)
    ensures Good(r) && SameInstant(c, r)
    ensures if c.phase in {Connecting, Connected} then r == c else c.attempts + [c.now] <= r.attempts
    decreases reacts, 4
  {
    if c.phase in {Connecting, Connected} then c
    else ConnectStarted(c.(retryEnabled := true, backoff := INITIAL_BACKOFF, waits := []), attempt, reacts)
  }

  /** disconnect_in_loop; on a live connection it closes it, and the closed callback runs. */
  function AfterDisconnect(c: Client, reacts: seq<Call>): (r: Client)
    requires Good(c)
    ensures Good(r) && r.phase == Disconnected && !r.retryEnabled
    ensures r.now == c.now && r.attempts == c.attempts && r.created == c.created && r.timers == c.timers
  {
    var d := c.(retryEnabled := false);
    match c.phase
    case Connected => AfterClosed(d, reacts)
    case Connecting => CloseSocket(d, c.connecting.value).(connecting := None, phase := Disconnected)
    case _ => d.(phase := Disconnected)
  }

  predicate Withdraws(reacts: seq<Call>) {
    exists i :: 0 <= i < |reacts| && reacts[i].Disconnect?
  }

  /** on_connection_closed.  While its callback runs the client is still Connected, so a
      connect call is ignored and a disconnect call only withdraws the permission to retry. */
  function AfterClosed(c: Client, reacts: seq<Call>): (r: Client)
    requires Settled(c) && c.phase == Connected && c.connection.Some?
    ensures Good(r)
    ensures r.now == c.now && r.attempts == c.attempts && r.created == c.created
    ensures r.retryEnabled <==> c.retryEnabled && !Withdraws(reacts)
    ensures !r.retryEnabled ==> r.timers == c.timers
  {
    var told := if Withdraws(reacts) then c.(retryEnabled := false) else c;
    RetryScheduled(CloseSocket(told, c.connection.value).(connection := None))
  }

  /** A timer goes off when its instant has come, the earliest first. */
  predicate GoesOff(c: Client, i: nat) {
    && i < |c.timers| && c.timers[i] <= c.now
    && forall j :: 0 <= j < |c.timers| ==> c.timers[i] <= c.timers[j]
  }

  function Without(timers: seq<Time>, i: nat): seq<Time>
    requires i < |timers|
  {
    timers[..i] + timers[i + 1..]
  }

  /** The i-th retry timer: a stale one that finds the client in another phase does nothing. */
  function AfterTimer(c: Client, i: nat, attempt: Attempt, reacts: seq<Call>): (r: Client)
    requires Good(c) && i < |c.timers|
    ensures Good(r) && SameInstant(c, r)
    ensures c.phase == Retrying ==> c.attempts + [c.now] <= r.attempts
    ensures c.phase != Retrying ==> r == c.(timers := Without(c.timers, i))
  {
    var d := c.(timers := Without(c.timers, i));
    if c.phase != Retrying then d else ConnectStarted(d, attempt, reacts)
  }

  class TcpClient {
    var phase: Phase
    var retryEnabled: bool
    var connectingFd: Option<Socket>
    var connection: Option<Socket>
    var backoffMs: nat
    var now: Time
    var timers: seq<Time>
    var created: nat
    ghost var due: Time
    ghost var attempts: seq<Time>
    ghost var closed: set<Socket>
    ghost var waits: seq<nat>

    ghost function View(): Client
      reads this
    {
      Client(phase, retryEnabled, connectingFd, connection, backoffMs, now, timers, due, attempts, created, closed,
             waits)
    }

    constructor ()
      ensures View() == IDLE
    {
      phase, retryEnabled, connectingFd, connection := Disconnected, false, None, None;
      backoffMs, now, timers, created := 0, 0, [], 0;
      due, attempts, closed, waits := 0, [], {}, [];
    }

    method ScheduleRetry()
      requires Settled(View())
      modifies this
      ensures View() == RetryScheduled(old(View()))
    {
      hide Settled, Good, Delay;
      if !retryEnabled {
        phase := Disconnected;
        return;
      }
      if backoffMs == 0 {
        backoffMs := INITIAL_BACKOFF;
      }
      phase := Retrying;
      var wait := backoffMs;
      waits := waits + [wait];
      due := now + wait;
      timers := timers + [now + wait];
      backoffMs := if wait * 2 < MAX_BACKOFF then wait * 2 else MAX_BACKOFF;
    }

    method StartConnect(attempt: Attempt, reacts: seq<Call>)
      requires Bare(View())
      modifies this
      ensures View() == ConnectStarted(old(View()), attempt, reacts)
      decreases reacts, 3
    {
      hide Delay, HandshakeFinished;
      if !retryEnabled {
        phase := Disconnected;
        return;
      }
      attempts := attempts + [now];
      if attempt == NoSocket {
        ScheduleRetry();
        return;
      }
      var fd := created;
      created := created + 1;
      if attempt == NotNonBlocking {
        closed := closed + {fd};
        ScheduleRetry();
        return;
      }
      if attempt.AtOnce? {
        connectingFd := Some(fd);
        phase := Connecting;
        HandleConnectWritable(attempt.ok, reacts);
        return;
      }
      if attempt != InProgress {
        closed := closed + {fd};
        ScheduleRetry();
        return;
      }
      connectingFd := Some(fd);
      phase := Connecting;
    }

    method HandleConnectWritable(ok: bool, reacts: seq<Call>)
      requires Good(View())
      modifies this
      ensures View() == HandshakeFinished(old(View()), ok, reacts)
      decreases reacts, 2
    {
      if connectingFd.None? {
        ScheduleRetry();
        return;
      }
      var fd := connectingFd.value;
      connectingFd := None;
      if !ok {
        closed := closed + {fd};
        ScheduleRetry();
        return;
      }
      phase := Connected;
      backoffMs := INITIAL_BACKOFF;
      waits := [];
      connection := Some(fd);
      ConnectionCallback(reacts);
    }

    /** The user's callback, making its calls one after the other. */
    method ConnectionCallback(calls: seq<Call>)
      requires Good(View())
      modifies this
      ensures View() == CallsMade(old(View()), calls)
      decreases calls, 0
    {
      if calls == [] {
        return;
      }
      match calls[0] {
        case Connect(attempt, reacts) => ConnectInLoop(attempt, reacts);
        case Disconnect(reacts) => DisconnectInLoop(reacts);
      }
      ConnectionCallback(calls[1..]);
    }

    method ConnectInLoop(attempt: Attempt, reacts: seq<Call>)
      requires Good(View())
      modifies this
      ensures View() == AfterConnect(old(View()), attempt, reacts)
      decreases reacts, 4
    {
      if phase == Connecting || phase == Connected {
        return;
      }
      retryEnabled := true;
      backoffMs := INITIAL_BACKOFF;
      waits := [];
      StartConnect(attempt, reacts);
    }

    method DisconnectInLoop(reacts: seq<Call>)
      requires Good(View())
      modifies this
      ensures View() == AfterDisconnect(old(View()), reacts)
    {
      retryEnabled := false;
      if phase == Connected && connection.Some? {
        OnConnectionClosed(reacts);
        return;
      }
      if phase == Connecting {
        closed := closed + {connectingFd.value};
        connectingFd := None;
        phase := Disconnected;
        return;
      }
      if phase == Retrying {
        phase := Disconnected;
      }
    }

    method OnConnectionClosed(reacts: seq<Call>)
      requires Settled(View()) && phase == Connected && connection.Some?
      modifies this
      ensures View() == AfterClosed(old(View()), reacts)
    {
      var withdrawn := false;
      for i := 0 to |reacts|
        invariant withdrawn <==> exists j :: 0 <= j < i && reacts[j].Disconnect?
      {
        withdrawn := withdrawn || reacts[i].Disconnect?;
      }
      if withdrawn {
        retryEnabled := false;
      }
      closed := closed + {connection.value};
      connection := None;
      ScheduleRetry();
    }

    method RetryTimer(i: nat, attempt: Attempt, reacts: seq<Call>)
      requires Good(View()) && i < |timers|
      modifies this
      ensures View() == AfterTimer(old(View()), i, attempt, reacts)
    {
      timers := Without(timers, i);
      if phase != Retrying {
        return;
      }
      StartConnect(attempt, reacts);
    }
  }

  // ----- whole runs -----

  datatype Event =
    | Advance(dt: nat)
    | UserConnect(attempt: Attempt, reacts: seq<Call>)
    | UserDisconnect(reacts: seq<Call>)
    | HandshakeDone(ok: bool, reacts: seq<Call>)
    | ConnectionDies(reacts: seq<Call>)
    | TimerFires(i: nat, attempt: Attempt, reacts: seq<Call>)

  predicate Enabled(c: Client, e: Event) {
    match e
    case Advance(_) => true
    case UserConnect(_, _) => true
    case UserDisconnect(_) => true
    case HandshakeDone(_, _) => c.phase != Connected
    case ConnectionDies(_) => c.phase == Connected
    case TimerFires(i, _, _) => GoesOff(c, i)
  }

  ghost function Next(c: Client, e: Event): (r: Client)
    requires Good(c) && Enabled(c, e)
    ensures Good(r) && c.attempts <= r.attempts
  {
    match e
    case Advance(dt) => c.(now := c.now + dt)
    case UserConnect(attempt, reacts) => AfterConnect(c, attempt, reacts)
    case UserDisconnect(reacts) => AfterDisconnect(c, reacts)
    case HandshakeDone(ok, reacts) => HandshakeFinished(c, ok, reacts)
    case ConnectionDies(reacts) => AfterClosed(c, reacts)
    case TimerFires(i, attempt, reacts) => AfterTimer(c, i, attempt, reacts)
  }

  ghost predicate CanRun(c: Client, es: seq<Event>)
    requires Good(c)
    decreases |es|
  {
    es == [] || (Enabled(c, es[0]) && CanRun(Next(c, es[0]), es[1..]))
  }

  /** Every run keeps phases, sockets and delays in order. */
  ghost function Exec(c: Client, es: seq<Event>): (r: Client)
    requires Good(c) && CanRun(c, es)
    ensures Good(r) && c.attempts <= r.attempts
    decreases |es|
  {
    if es == [] then c else Exec(Next(c, es[0]), es[1..])
  }

  ghost predicate NoConnect(es: seq<Event>) {
    forall i :: 0 <= i < |es| ==> !es[i].UserConnect?
  }

  /** After a disconnect, no run without a connect makes an attempt or a socket, whatever
      stale retry timers still fire. */
  lemma {:induction false} QuietAfterDisconnect(c: Client, es: seq<Event>)
    requires Good(c) && !c.retryEnabled && CanRun(c, es) && NoConnect(es)
    ensures var r := Exec(c, es);
            r.created == c.created && r.attempts == c.attempts && r.phase == Disconnected
    decreases |es|
  {
    if es == [] {
    } else {
      assert !es[0].UserConnect?;
      QuietAfterDisconnect(Next(c, es[0]), es[1..]);
    }
  }

  // ----- how long a retry really waits -----

  /** Does this run make an attempt before the given instant? */
  ghost predicate AttemptsBefore(c: Client, es: seq<Event>, instant: Time)
    requires Good(c) && CanRun(c, es)
  {
    |c.attempts| < |Exec(c, es).attempts| && Exec(c, es).attempts[|c.attempts|] < instant
  }

  /** Nothing pending can go off before the given instant. */
  ghost predicate NothingBefore(c: Client, instant: Time) {
    instant <= c.now || forall j :: 0 <= j < |c.timers| ==> instant <= c.timers[j]
  }

  lemma {:induction false} WaitKept(c: Client, es: seq<Event>, instant: Time)
    requires Good(c) && CanRun(c, es) && NoConnect(es)
    requires c.phase == Retrying ==> NothingBefore(c, instant) && instant <= c.now + c.backoff
    requires c.phase in {Retrying, Disconnected}
    ensures !AttemptsBefore(c, es, instant)
    decreases |es|
  {
    if c.phase == Disconnected {
      QuietAfterDisconnect(c, es);
    } else if es == [] {
    } else {
      var d := Next(c, es[0]);
      assert !es[0].UserConnect?;
      if es[0].TimerFires? {
        assert c.attempts + [c.now] <= d.attempts <= Exec(d, es[1..]).attempts;
      } else {
        WaitingGoesOn(c, es[0], instant);
        WaitKept(d, es[1..], instant);
      }
    }
  }

  lemma WaitingGoesOn(c: Client, e: Event, instant: Time)
    requires Good(c) && Enabled(c, e) && !e.UserConnect? && !e.TimerFires?
    requires c.phase == Retrying && NothingBefore(c, instant) && instant <= c.now + c.backoff
    ensures var d := Next(c, e);
            && d.attempts == c.attempts && d.phase in {Retrying, Disconnected}
            && (d.phase == Retrying ==> NothingBefore(d, instant) && instant <= d.now + d.backoff)
  {
    DelayDoubles(|c.waits|);
  }

  lemma {:induction false} Earliest(timers: seq<Time>) returns (first: nat)
    requires timers != []
    ensures first < |timers| && forall j :: 0 <= j < |timers| ==> timers[first] <= timers[j]
  {
    if |timers| == 1 {
      first := 0;
    } else {
      var rest := Earliest(timers[1..]);
      first := if timers[0] <= timers[rest + 1] then 0 else rest + 1;
      assert forall j :: 0 < j < |timers| ==> timers[j] == timers[1..][j - 1];
    }
  }

  lemma OneMore(c: Client, e: Event, es: seq<Event>)
    requires Good(c) && Enabled(c, e) && CanRun(Next(c, e), es)
    ensures CanRun(c, [e] + es) && Exec(c, [e] + es) == Exec(Next(c, e), es)
  {
    hide Good, Enabled, Next;
    assert ([e] + es)[1..] == es;
  }

  /** Waiting for the earliest timer and letting it go off makes an attempt then. */
  lemma EarliestAttempts(c: Client) returns (es: seq<Event>)
    requires Good(c) && c.phase == Retrying && !NothingBefore(c, c.due)
    ensures CanRun(c, es) && NoConnect(es) && AttemptsBefore(c, es, c.due)
  {
    var first := Earliest(c.timers);
    var at := c.timers[first];
    var wait, fire := Advance(if at <= c.now then 0 else at - c.now), TimerFires(first, NoSocket, []);
    var d := Next(c, wait);
    assert Enabled(d, fire);
    assert c.attempts + [d.now] <= Next(d, fire).attempts;
    assert d.now < c.due;
    hide Good, Enabled, Next, Delay;
    OneMore(d, fire, []);
    OneMore(c, wait, [fire] + []);
    es := [wait] + ([fire] + []);
    assert es[0] == wait && es[1] == fire && |es| == 2;
  }

  /** From a retry that is due at c.due, no run without a new connect call attempts sooner,
      exactly when that instant has come or every pending timer, stale ones included, is due
      at it or later. */
  lemma WaitKeptIff(c: Client)
    requires Good(c) && c.phase == Retrying
    ensures (forall es :: CanRun(c, es) && NoConnect(es) ==> !AttemptsBefore(c, es, c.due))
            <==> NothingBefore(c, c.due)
  {
    if NothingBefore(c, c.due) {
      WaitFitsBackoff(c);
      hide Good, CanRun, Exec, AttemptsBefore, NothingBefore;
      forall es | CanRun(c, es) && NoConnect(es)
        ensures !AttemptsBefore(c, es, c.due)
      {
        WaitKept(c, es, c.due);
      }
    } else {
      hide Good, CanRun, Exec, AttemptsBefore, NothingBefore;
      var es := EarliestAttempts(c);
    }
  }

  lemma WaitFitsBackoff(c: Client)
    requires Good(c) && c.phase == Retrying
    ensures c.due <= c.now + c.backoff
  {
    DelayDoubles(|c.waits| - 1);
  }

  lemma RefusedConnect(c: Client)
    requires Good(c) && c.phase == Disconnected
    ensures var d := Next(c, UserConnect(Refused, []));
            && d.phase == Retrying && d.now == c.now && d.due == c.now + 500
            && d.timers == c.timers + [c.now + 500] && d.attempts == c.attempts + [c.now]
  {
    assert Pow2(0) == 1;
    assert Delay(0) == 500;
  }

  lemma Passes(c: Client, dt: nat)
    requires Good(c)
    ensures Next(c, Advance(dt)) == c.(now := c.now + dt)
  {
  }

  lemma Withdrawn(c: Client)
    requires Good(c)
    ensures var d := Next(c, UserDisconnect([]));
            d.phase == Disconnected && d.now == c.now && d.timers == c.timers && d.attempts == c.attempts
  {
  }

  lemma RefusedRetry(c: Client, i: nat)
    requires Good(c) && c.phase == Retrying && GoesOff(c, i)
    ensures Next(c, TimerFires(i, Refused, [])).attempts == c.attempts + [c.now]
  {
  }

  /** Withdrawn, and after a while connected again and refused. */
  lemma RefusedAgain(c: Client, dt: nat) returns (es: seq<Event>)
    requires Good(c)
    ensures CanRun(c, es)
    ensures var d := Exec(c, es);
            && d.phase == Retrying && d.now == c.now + dt && d.due == d.now + 500
            && d.timers == c.timers + [d.due] && d.attempts == c.attempts + [d.now]
  {
    var connect, withdraw := UserConnect(Refused, []), UserDisconnect([]);
    hide Good, CanRun, Exec, Next;
    Withdrawn(c);
    var c2 := Next(c, withdraw);
    Passes(c2, dt);
    var c3 := Next(c2, Advance(dt));
    RefusedConnect(c3);
    JustOne(c3, connect);
    OneMore(c2, Advance(dt), [connect]);
    OneMore(c, withdraw, [Advance(dt)] + [connect]);
    es := [withdraw] + ([Advance(dt)] + [connect]);
  }

  /** Refused at 0, withdrawn, and refused again at 400. */
  lemma RefusedTwice() returns (es: seq<Event>)
    ensures Good(IDLE) && CanRun(IDLE, es)
    ensures var c := Exec(IDLE, es);
            c.phase == Retrying && c.now == 400 && c.due == 900 && c.timers == [500, 900] && c.attempts == [0, 400]
  {
    var connect := UserConnect(Refused, []);
    assert Good(IDLE);
    hide Good, CanRun, Exec, Next;
    RefusedConnect(IDLE);
    var rest := RefusedAgain(Next(IDLE, connect), 400);
    OneMore(IDLE, connect, rest);
    es := [connect] + rest;
  }

  lemma JustOne(c: Client, e: Event)
    requires Good(c) && Enabled(c, e)
    ensures CanRun(c, [e]) && Exec(c, [e]) == Next(c, e)
  {
    OneMore(c, e, []);
    assert [e] + [] == [e];
  }

  /** The second retry is then due at 900, and the timer left over from the first makes the
      attempt at 500. */
  lemma StaleTimerShortensTheWait() returns (es: seq<Event>, more: seq<Event>)
    ensures Good(IDLE) && CanRun(IDLE, es)
    ensures Exec(IDLE, es).phase == Retrying && Exec(IDLE, es).due == 900
    ensures CanRun(Exec(IDLE, es), more) && NoConnect(more)
    ensures Exec(Exec(IDLE, es), more).attempts == [0, 400, 500]
  {
    es := RefusedTwice();
    var c, fire := Exec(IDLE, es), TimerFires(0, Refused, []);
    var d := Next(c, Advance(100));
    assert GoesOff(d, 0);
    hide Good, CanRun, Exec;
    RefusedRetry(d, 0);
    JustOne(d, fire);
    OneMore(c, Advance(100), [fire]);
    more := [Advance(100)] + [fire];
  }

  // ----- a client that connects once and whose callback makes no calls -----

  /** What happens to such a client: no connect or disconnect call, and a handshake event only
      while there is a handshake. */
  predicate Undisturbed(c: Client, e: Event) {
    match e
    case Advance(_) => true
    case ConnectionDies(reacts) => reacts == []
    case HandshakeDone(_, reacts) => reacts == [] && c.phase == Connecting
    case TimerFires(_, _, reacts) => reacts == []
    case _ => false
  }

  /** Its only timer is that of the retry it is waiting for. */
  ghost predicate Sole(c: Client) {
    && c.phase != Disconnected
    && c.timers == (if c.phase == Retrying then [c.due] else [])
    && (c.phase == Connected ==> c.waits == [])
  }

  lemma FirstConnection()
    ensures Good(IDLE)
    ensures var c := Next(IDLE, UserConnect(AtOnce(true), []));
            c.phase == Connected && Sole(c) && c.now == 0
  {
    AttemptAlone(IDLE.(retryEnabled := true, backoff := INITIAL_BACKOFF), AtOnce(true));
  }

  lemma SoleStep(c: Client, e: Event)
    requires Good(c) && Sole(c) && Enabled(c, e) && Undisturbed(c, e)
    ensures Sole(Next(c, e))
  {
    match e
    case TimerFires(i, attempt, _) =>
      assert Without(c.timers, i) == [];
      AttemptAlone(c.(timers := []), attempt);
    case HandshakeDone(ok, _) => HandshakeAlone(c, ok);
    case _ =>
  }

  lemma HandshakeAlone(c: Client, ok: bool)
    requires Good(c) && c.phase == Connecting && c.timers == []
    ensures Sole(HandshakeFinished(c, ok, []))
    ensures ok ==> HandshakeFinished(c, ok, []).phase == Connected
  {
    var d := c.(connecting := None, phase := Connected, backoff := INITIAL_BACKOFF, waits := [], connection := c.connecting);
    if ok {
      assert CallsMade(d, []) == d;
      assert HandshakeFinished(c, ok, []) == CallsMade(d, []);
    }
  }

  lemma AttemptAlone(c: Client, attempt: Attempt)
    requires Bare(c) && c.retryEnabled && c.timers == []
    ensures Sole(ConnectStarted(c, attempt, []))
    ensures attempt == AtOnce(true) ==> ConnectStarted(c, attempt, []).phase == Connected
  {
    var d := c.(attempts := c.attempts + [c.now]);
    var closed := CloseSocket(CreateSocket(d), c.created);
    hide RetryScheduled, HandshakeFinished, Delay;
    match attempt
    case AtOnce(ok) => HandshakeAlone(CreateSocket(d).(connecting := Some(c.created), phase := Connecting), ok);
    case InProgress =>
    case NoSocket => RetryAlone(d);
    case NotNonBlocking => RetryAlone(closed);
    case Refused => RetryAlone(closed);
  }

  lemma RetryAlone(c: Client)
    requires Settled(c) && c.retryEnabled && c.timers == []
    ensures Sole(RetryScheduled(c))
  {
    hide Delay;
  }

  /** A lost connection is not tried again before the first delay is over. */
  lemma LossWaits(c: Client)
    requires Good(c) && Sole(c) && c.phase == Connected
    ensures var d := Next(c, ConnectionDies([]));
            && d.phase == Retrying && d.now == c.now && d.due == c.now + INITIAL_BACKOFF && d.timers == [d.due]
            && NothingBefore(d, d.due)
  {
    assert Pow2(0) == 1;
    assert Delay(0) == INITIAL_BACKOFF;
  }

  lemma RetrySucceeds(c: Client)
    requires Good(c) && Sole(c) && c.phase == Retrying && c.due <= c.now
    ensures Enabled(c, TimerFires(0, AtOnce(true), []))
    ensures Next(c, TimerFires(0, AtOnce(true), [])).phase == Connected
  {
    assert Without(c.timers, 0) == [];
    AttemptAlone(c.(timers := []), AtOnce(true));
  }

  // ----- what each outcome leads to -----

  /** An attempt with permission: a handshake under way keeps the new socket; every failure has
      closed what it opened and waits for the retry; a handshake done at once is its outcome. */
  lemma AttemptLeadsTo(c: Client, attempt: Attempt, reacts: seq<Call>)
    requires Bare(c) && c.retryEnabled
    ensures var r := ConnectStarted(c, attempt, reacts);
            match attempt
            case InProgress =>
              && r.phase == Connecting && r.connecting == Some(c.created) && r.created == c.created + 1
              && r.timers == c.timers && r.waits == c.waits && r.closed == c.closed
            case NoSocket => r.phase == Retrying && r.created == c.created && r.closed == c.closed
            case NotNonBlocking => r.phase == Retrying && r.created == c.created + 1 && r.closed == c.closed + {c.created}
            case Refused => r.phase == Retrying && r.created == c.created + 1 && r.closed == c.closed + {c.created}
            case AtOnce(ok) =>
              && (!ok ==> r.phase == Retrying && r.created == c.created + 1 && r.closed == c.closed + {c.created})
              && (ok && reacts == [] ==> r.phase == Connected && r.connection == Some(c.created))
  {
    var d := c.(attempts := c.attempts + [c.now]);
    var held := CreateSocket(d).(connecting := Some(c.created), phase := Connecting);
    match attempt
    case AtOnce(ok) =>
      assert ConnectStarted(c, attempt, reacts) == HandshakeFinished(held, ok, reacts);
      HandshakeLeadsTo(held, ok, reacts);
    case _ =>
  }

  /** A handshake that failed closes its socket and waits for the retry; one that succeeded makes
      its very socket the connection, with the delays reset, before the callback has its say. */
  lemma HandshakeLeadsTo(c: Client, ok: bool, reacts: seq<Call>)
    requires Good(c) && c.phase == Connecting
    ensures var r, x := HandshakeFinished(c, ok, reacts), c.connecting.value;
            && (!ok ==> && r.phase == Retrying && r.closed == c.closed + {x} && r.created == c.created
                        && r.waits == c.waits + [Delay(|c.waits|)])
            && (ok ==> r == CallsMade(Up(c), reacts))
            && Up(c).phase == Connected && Up(c).connection == Some(x) && Up(c).waits == [] && Up(c).closed == c.closed
            && (ok && reacts == [] ==> r == Up(c))
  {
    assert CallsMade(Up(c), []) == Up(c);
  }

  /** The client with its handshake done. */
  function Up(c: Client): (r: Client)
    requires Good(c) && c.phase == Connecting
    ensures Good(r)
  {
    c.(connecting := None, phase := Connected, backoff := INITIAL_BACKOFF, waits := [], connection := c.connecting)
  }

  /** The calls of a callback take effect one after the other. */
  lemma {:induction false} CallsSplit(c: Client, a: seq<Call>, b: seq<Call>)
    requires Good(c)
    ensures CallsMade(c, a + b) == CallsMade(CallsMade(c, a), b)
    decreases |a|
  {
    if a == [] {
      assert a + b == b;
    } else {
      assert (a + b)[0] == a[0] && (a + b)[1..] == a[1..] + b;
      match a[0]
      case Connect(attempt, reacts) => CallsSplit(AfterConnect(c, attempt, reacts), a[1..], b);
      case Disconnect(reacts) => CallsSplit(AfterDisconnect(c, reacts), a[1..], b);
    }
  }

  /** The last call of a callback has the last word: after a disconnect the client is down, after
      a connect it is trying, connected or waiting, and has tried if it was neither. */
  lemma LastCallCounts(c: Client, calls: seq<Call>, last: Call)
    requires Good(c)
    ensures var before, r := CallsMade(c, calls), CallsMade(c, calls + [last]);
            && (last.Disconnect? ==> r.phase == Disconnected && !r.retryEnabled && r.attempts == before.attempts)
            && (last.Connect? && before.phase !in {Connecting, Connected} ==> before.attempts + [c.now] <= r.attempts)
  {
    CallsSplit(c, calls, [last]);
    var d := CallsMade(c, calls);
    assert [last][1..] == [];
    match last
    case Connect(attempt, reacts) =>
      assert CallsMade(d, [last]) == CallsMade(AfterConnect(d, attempt, reacts), []);
    case Disconnect(reacts) =>
      assert CallsMade(d, [last]) == CallsMade(AfterDisconnect(d, reacts), []);
  }

  // ----- a retrying client can get its connection -----

  lemma Later(c: Client) returns (i: nat, wait: Event)
    requires Good(c) && c.phase == Retrying
    ensures wait.Advance? && i < |c.timers| && GoesOff(Next(c, wait), i)
    ensures Next(c, wait) == c.(now := c.now + wait.dt)
  {
    i := Earliest(c.timers);
    wait := Advance(if c.timers[i] <= c.now then 0 else c.timers[i] - c.now);
  }

  /** From every retrying state: the earliest timer goes off, connect(2) answers EINPROGRESS, the
      handshake succeeds, and the socket of that attempt is the connection. */
  lemma CanConnect(c: Client) returns (es: seq<Event>)
    requires Good(c) && c.phase == Retrying
    ensures CanRun(c, es) && NoConnect(es)
    ensures Exec(c, es).phase == Connected && Exec(c, es).connection == Some(c.created)
    ensures Exec(c, es).created == c.created + 1 && Exec(c, es).waits == []
  {
    var i, wait := Later(c);
    var fire, done := TimerFires(i, InProgress, []), HandshakeDone(true, []);
    var d := Next(c, wait);
    AttemptLeadsTo(d.(timers := Without(d.timers, i)), InProgress, []);
    var e := Next(d, fire);
    HandshakeLeadsTo(e, true, []);
    hide Good, Next, CanRun, Exec, GoesOff;
    JustOne(e, done);
    OneMore(d, fire, [done]);
    OneMore(c, wait, [fire] + [done]);
    es := [wait] + ([fire] + [done]);
  }
}
