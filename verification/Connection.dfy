/**
 The write side of src/connection.cpp: send, handle_write, shutdown and close over an output
 buffer, with the kernel's answers to write(2) given from outside.  The class is the code;
 `Conn` and its functions are what the class is proved against and what whole runs are made
 of.
 */
module Connection {
  import opened Bytes
  import opened ByteBuffer

  datatype Phase = Connected | Disconnecting | Disconnected

  /** One answer of write(2).  A list of answers that runs out goes on with WouldBlock. */
  datatype Answer = Wrote(n: nat) | Interrupted | WouldBlock | Failed

  datatype End = Drained | Blocked | Broken

  datatype Written = Written(taken: bytes, left: bytes, end: End)

  /** A write loop: what the kernel takes of data, what is left, and why the loop ended. */
  function WriteLoop(data: bytes, answers: seq<Answer>): (r: Written)
    ensures r.taken + r.left == data
    ensures r.end == Drained <==> r.left == []
    decreases |answers|
  {
    if data == [] then Written([], [], Drained)
    else if answers == [] then Written([], data, Blocked)
    else match answers[0]
      case Wrote(n) =>
        var k := if n <= |data| then n else |data|;
        var r := WriteLoop(data[k..], answers[1..]);
        Written(data[..k] + r.taken, r.left, r.end)
      case Interrupted => WriteLoop(data, answers[1..])
      case WouldBlock => Written([], data, Blocked)
      case Failed => Written([], data, Broken)
  }

  function WithoutInterrupts(answers: seq<Answer>): seq<Answer> {
    if answers == [] then []
    else (if answers[0] == Interrupted then [] else [answers[0]]) + WithoutInterrupts(answers[1..])
  }

  /** EINTR changes nothing. */
  lemma {:induction false} InterruptsDoNotMatter(data: bytes, answers: seq<Answer>)
    ensures WriteLoop(data, answers) == WriteLoop(data, WithoutInterrupts(answers))
    decreases |answers|
  {
    if data == [] || answers == [] {
    } else {
      var rest := WithoutInterrupts(answers[1..]);
      match answers[0]
      case Interrupted =>
        assert [] + rest == rest;
        InterruptsDoNotMatter(data, answers[1..]);
      case Wrote(n) =>
        assert ([answers[0]] + rest)[1..] == rest;
        InterruptsDoNotMatter(data[if n <= |data| then n else |data|..], answers[1..]);
      case _ =>
    }
  }

  /** What the kernel offers to take before it first answers EAGAIN or an error. */
  function Offered(answers: seq<Answer>): nat {
    if answers == [] || answers[0] in {WouldBlock, Failed} then 0
    else (if answers[0].Wrote? then answers[0].n else 0) + Offered(answers[1..])
  }

  /** Its first answer that is EAGAIN or an error. */
  function Refusal(answers: seq<Answer>): Answer {
    if answers == [] then WouldBlock
    else if answers[0] in {WouldBlock, Failed} then answers[0]
    else Refusal(answers[1..])
  }

  /** The loop takes all that is offered and no more than there is; if something is left, the
      refusal it met decides how it ends. */
  lemma {:induction false} WriteLoopExactly(data: bytes, answers: seq<Answer>)
    ensures var r := WriteLoop(data, answers);
            && |r.taken| == (if Offered(answers) < |data| then Offered(answers) else |data|)
            && (r.end == Broken <==> r.left != [] && Refusal(answers) == Failed)
            && (r.end == Blocked <==> r.left != [] && Refusal(answers) == WouldBlock)
    decreases |answers|
  {
    if data == [] || answers == [] {
    } else {
      match answers[0]
      case Interrupted => WriteLoopExactly(data, answers[1..]);
      case Wrote(n) => WriteLoopExactly(data[if n <= |data| then n else |data|..], answers[1..]);
      case _ =>
    }
  }

  datatype Conn = Conn(
    phase: Phase,
    out: bytes,                // output_buffer_
    writing: bool,             // EPOLLOUT interest
    shutdownPending: bool,
    fins: nat,                 // history: how often SHUT_WR was issued
    taken: bytes,              // history: what the kernel took
    accepted: bytes)           // history: what send accepted

  const OPENED := Conn(Connected, [], false, false, 0, [], [])

  function Closed(c: Conn): Conn {
    if c.phase == Disconnected then c else c.(phase := Disconnected, writing := false)
  }

  /** The part of a send that the kernel does not take at once. */
  function Backlogged(c: Conn, left: bytes): Conn {
    if left == [] then c else c.(out := c.out + left, writing := true)
  }

  function Sent(c: Conn, data: bytes, answers: seq<Answer>): Conn {
    if c.phase != Connected || data == [] then c
    else if c.out != [] then Backlogged(c.(accepted := c.accepted + data), data)
    else
      var r := WriteLoop(data, answers);
      var d := c.(taken := c.taken + r.taken);
      if r.end == Broken then Closed(d) else Backlogged(d.(accepted := c.accepted + data), r.left)
  }

  /** Does this send push the backlog from below the mark to the mark or above? */
  predicate Crosses(c: Conn, data: bytes, answers: seq<Answer>, mark: nat) {
    mark > 0 && |c.out| < mark <= |Sent(c, data, answers).out|
  }

  function Finish(c: Conn): Conn {
    c.(writing := false, shutdownPending := false, fins := if c.shutdownPending then c.fins + 1 else c.fins)
  }

  /** handle_write: EPOLLOUT with a backlog. */
  function Flushed(c: Conn, answers: seq<Answer>): Conn {
    if c.out == [] then c.(writing := false)
    else
      var r := WriteLoop(c.out, answers);
      var d := c.(taken := c.taken + r.taken, out := r.left);
      match r.end
      case Blocked => d
      case Broken => Closed(d)
      case Drained => Finish(d)
  }

  /** Did this handle_write empty a backlog and so queue the write-complete callback? */
  predicate Completes(c: Conn, answers: seq<Answer>) {
    c.out != [] && WriteLoop(c.out, answers).end == Drained
  }

  function ShutDown(c: Conn): Conn {
    if c.phase == Disconnected then c
    else if c.out == [] then c.(fins := c.fins + 1)
    else c.(shutdownPending := true)
  }

  class Connection {
    var phase: Phase
    const output: Buffer
    var writing: bool
    var shutdownPending: bool
    var highWaterMark: nat       // 0 when there is no high-water callback
    var tellsDrained: bool       // is there a write-complete callback?
    ghost var fins: nat
    ghost var taken: bytes
    ghost var accepted: bytes

    ghost predicate Valid()
      reads this, output
    {
      output.Valid()
    }

    ghost function View(): Conn
      requires Valid()
      reads this, output, output.data
    {
      Conn(phase, output.Readable(), writing, shutdownPending, fins, taken, accepted)
    }

    constructor ()
      ensures Valid() && fresh(output) && fresh(output.data)
      ensures View() == OPENED && highWaterMark == 0 && !tellsDrained
    {
      output := new Buffer();
      phase, writing, shutdownPending := Connected, false, false;
      highWaterMark, tellsDrained := 0, false;
      fins, taken, accepted := 0, [], [];
    }

    method Close()
      requires Valid()
      modifies this`phase, this`writing
      ensures Valid() && View() == Closed(old(View()))
    {
      if phase == Disconnected {
        return;
      }
      phase := Disconnected;
      writing := false;
    }

    /** The fast path of send: write(2) until everything is taken, or EAGAIN, or an error. */
    method WriteDirectly(data: bytes, answers: seq<Answer>) returns (rest: bytes, end: End)
      requires Valid()
      modifies this`taken
      ensures var r := WriteLoop(data, answers);
              rest == r.left && end == r.end && taken == old(taken) + r.taken
    {
      rest := data;
      var i := 0;
      ghost var whole := WriteLoop(data, answers);
      while rest != []
        invariant i <= |answers|
        invariant var r := WriteLoop(rest, answers[i..]);
                  && old(taken) + whole.taken == taken + r.taken
                  && whole.left == r.left && whole.end == r.end
        decreases |answers| - i
      {
        if i == |answers| {
          return rest, Blocked;
        }
        assert answers[i..][1..] == answers[i + 1..];
        match answers[i] {
          case Wrote(n) =>
            var k := if n <= |rest| then n else |rest|;
            ghost var r := WriteLoop(rest[k..], answers[i + 1..]);
            assert taken + (rest[..k] + r.taken) == taken + rest[..k] + r.taken;
            taken := taken + rest[..k];
            rest := rest[k..];
          case Interrupted =>
          case WouldBlock => return rest, Blocked;
          case Failed => return rest, Broken;
        }
        i := i + 1;
      }
      end := Drained;
    }

    /** Returns whether the high-water callback was queued. */
    method Send(data: bytes, answers: seq<Answer>) returns (crossed: bool)
      requires Valid()
      modifies this`phase, this`writing, this`taken, this`accepted, output, output.data
      ensures Valid() && (output.data == old(output.data) || fresh(output.data))
      ensures View() == Sent(old(View()), data, answers)
      ensures crossed <==> Crosses(old(View()), data, answers, highWaterMark)
    {
      hide WriteLoop;
      crossed := false;
      if phase != Connected || data == [] {
        return;
      }
      var remaining := data;
      var backlog := output.ReadableBytes();
      if backlog == 0 {
        var end;
        remaining, end := WriteDirectly(data, answers);
        if end == Broken {
          Close();
          return;
        }
      }
      accepted := accepted + data;
      if remaining != [] {
        output.Append(remaining);
        var grown := output.ReadableBytes();
        crossed := highWaterMark > 0 && backlog < highWaterMark && grown >= highWaterMark;
        if !writing {
          writing := true;
        }
      }
    }

    /** Returns whether the write-complete callback was queued. */
    method HandleWrite(answers: seq<Answer>) returns (completed: bool)
      requires Valid()
      modifies this`phase, this`writing, this`shutdownPending, this`fins, this`taken, output
      ensures Valid() && output.data == old(output.data)
      ensures View() == Flushed(old(View()), answers)
      ensures completed <==> tellsDrained && Completes(old(View()), answers)
    {
      completed := false;
      var backlog := output.ReadableBytes();
      if backlog == 0 {
        writing := false;
        return;
      }
      var end := WriteBacklog(answers);
      if end == Blocked {
        return;
      }
      if end == Broken {
        Close();
        return;
      }
      writing := false;
      if shutdownPending {
        shutdownPending := false;
        fins := fins + 1;
      }
      completed := tellsDrained;
    }

    /** The write loop of handle_write, consuming the buffer as the kernel takes bytes. */
    method WriteBacklog(answers: seq<Answer>) returns (end: End)
      requires Valid()
      modifies this`taken, output
      ensures Valid() && output.data == old(output.data)
      ensures var r := WriteLoop(old(output.Readable()), answers);
              output.Readable() == r.left && end == r.end && taken == old(taken) + r.taken
    {
      var i := 0;
      ghost var whole := WriteLoop(output.Readable(), answers);
      var n := output.ReadableBytes();
      while n > 0
        invariant Valid() && output.data == old(output.data) && n == |output.Readable()|
        invariant i <= |answers|
        invariant var r := WriteLoop(output.Readable(), answers[i..]);
                  && old(taken) + whole.taken == taken + r.taken
                  && whole.left == r.left && whole.end == r.end
        decreases |answers| - i
      {
        if i == |answers| {
          return Blocked;
        }
        assert answers[i..][1..] == answers[i + 1..];
        match answers[i] {
          case Wrote(m) =>
            ghost var before := output.Readable();
            ghost var k := if m <= |before| then m else |before|;
            ghost var r := WriteLoop(before[k..], answers[i + 1..]);
            assert taken + (before[..k] + r.taken) == taken + before[..k] + r.taken;
            taken := taken + before[..k];
            output.Retrieve(m);
            assert output.Readable() == before[k..];
          case Interrupted =>
          case WouldBlock => return Blocked;
          case Failed => return Broken;
        }
        i := i + 1;
        n := output.ReadableBytes();
      }
      end := Drained;
    }

    method ShutdownInLoop()
      requires Valid()
      modifies this`shutdownPending, this`fins
      ensures Valid() && View() == ShutDown(old(View()))
    {
      if phase == Disconnected {
        return;
      }
      var backlog := output.ReadableBytes();
      if backlog == 0 {
        fins := fins + 1;
      } else {
        shutdownPending := true;
      }
    }
  }

  // ----- whole runs -----

  /** The half-close call: none yet, its caller between setting the state and posting, its
      functor queued in the loop, or done. */
  datatype Call = NotCalled | Posting | Queued | Ran

  datatype State = State(c: Conn, call: Call)

  datatype Event =
    | Send(data: bytes, answers: seq<Answer>)
    | Writable(answers: seq<Answer>)
    | ShutdownHere                      // shutdown() on the loop thread: runs at once
    | ShutdownElsewhere                 // shutdown() on another thread: sets the state
    | PostShutdown
    | RunShutdown
    | Close

  const START := State(OPENED, NotCalled)

  predicate Enabled(s: State, e: Event) {
    match e
    case PostShutdown => s.call == Posting
    case RunShutdown => s.call == Queued
    case _ => true
  }

  function Next(s: State, e: Event): State
    requires Enabled(s, e)
  {
    match e
    case Send(data, answers) => s.(c := Sent(s.c, data, answers))
    case Writable(answers) => s.(c := Flushed(s.c, answers))
    case ShutdownHere =>
      if s.c.phase == Connected then State(ShutDown(s.c.(phase := Disconnecting)), Ran) else s
    case ShutdownElsewhere =>
      if s.c.phase == Connected then State(s.c.(phase := Disconnecting), Posting) else s
    case PostShutdown => s.(call := Queued)
    case RunShutdown => State(ShutDown(s.c), Ran)
    case Close => s.(c := Closed(s.c))
  }

  predicate CanRun(s: State, es: seq<Event>)
    decreases |es|
  {
    es == [] || (Enabled(s, es[0]) && CanRun(Next(s, es[0]), es[1..]))
  }

  function Exec(s: State, es: seq<Event>): State
    requires CanRun(s, es)
    decreases |es|
  {
    if es == [] then s else Exec(Next(s, es[0]), es[1..])
  }

  /** Bytes the kernel took, then the backlog, are the accepted bytes; EPOLLOUT is on exactly
      while there is a backlog. */
  ghost predicate ByteExact(c: Conn) {
    c.phase != Disconnected ==> c.taken + c.out == c.accepted && (c.writing <==> c.out != [])
  }

  /** SHUT_WR at most once, and once the connection is half-closed its one SHUT_WR has been
      issued with nothing left to send, or is still to come with something driving it. */
  ghost predicate HalfClose(s: State) {
    && s.c.fins + (if s.c.shutdownPending then 1 else 0) + (if s.call in {Posting, Queued} then 1 else 0) <= 1
    && (s.c.phase == Connected ==> s.call == NotCalled && s.c.fins == 0 && !s.c.shutdownPending)
    && (s.c.phase == Disconnecting ==>
          || s.call in {Posting, Queued}
          || (s.c.fins == 1 && s.c.out == [] && s.c.taken == s.c.accepted)
          || (s.c.shutdownPending && s.c.out != [] && s.c.writing))
  }

  ghost predicate Inv(s: State) {
    ByteExact(s.c) && HalfClose(s)
  }

  lemma SentExact(c: Conn, data: bytes, answers: seq<Answer>)
    requires ByteExact(c)
    ensures ByteExact(Sent(c, data, answers))
  {
    hide WriteLoop;
    if c.phase == Connected && data != [] {
      if c.out == [] {
        var r := WriteLoop(data, answers);
        assert c.taken + r.taken + r.left == c.taken + (r.taken + r.left);
      } else {
        assert c.taken + (c.out + data) == c.taken + c.out + data;
      }
    }
  }

  /** A send that leaves the connection up has accepted all of its data. */
  lemma SendAccepts(c: Conn, data: bytes, answers: seq<Answer>)
    requires c.phase == Connected && Sent(c, data, answers).phase == Connected
    ensures Sent(c, data, answers).accepted == c.accepted + data
  {
    hide WriteLoop;
  }

  lemma FlushedExact(c: Conn, answers: seq<Answer>)
    requires ByteExact(c)
    ensures ByteExact(Flushed(c, answers))
  {
    hide WriteLoop;
    var r := WriteLoop(c.out, answers);
    assert c.taken + r.taken + r.left == c.taken + (r.taken + r.left);
  }

  lemma Preserved(s: State, e: Event)
    requires Inv(s) && Enabled(s, e)
    ensures Inv(Next(s, e))
  {
    hide WriteLoop;
    if e.Send? {
      SentExact(s.c, e.data, e.answers);
    } else if e.Writable? {
      FlushedExact(s.c, e.answers);
    }
    assert s.c.taken + [] == s.c.taken;
  }

  /** Every mix of sends, partial writes, EINTR, EAGAIN, errors, half-closes and closes. */
  lemma {:induction false} EveryRun(s: State, es: seq<Event>)
    requires Inv(s) && CanRun(s, es)
    ensures Inv(Exec(s, es))
    decreases |es|
  {
    if es == [] {
    } else {
      hide Inv, Next, Enabled;
      Preserved(s, es[0]);
      EveryRun(Next(s, es[0]), es[1..]);
    }
  }

  lemma EveryRunFromStart(es: seq<Event>)
    requires CanRun(START, es)
    ensures Inv(Exec(START, es))
  {
    hide CanRun, Exec;
    EveryRun(START, es);
  }

  /** On a connection that is not closed, the step that issues SHUT_WR is one after which
      every accepted byte is with the kernel, and nothing more is accepted afterwards. */
  lemma FinAfterLastByte(s: State, e: Event)
    requires Inv(s) && Enabled(s, e) && s.c.phase != Disconnected
    ensures Next(s, e).c.fins > s.c.fins ==> Next(s, e).c.out == [] && Next(s, e).c.taken == Next(s, e).c.accepted
    ensures s.c.fins == 1 ==> Next(s, e).c.accepted == s.c.accepted && Next(s, e).c.taken == s.c.taken
  {
    Preserved(s, e);
    hide WriteLoop;
    var c := Next(s, e).c;
    assert c.out == [] ==> c.taken + c.out == c.taken;
  }

  // ----- a half-close is carried through -----

  /** shutdown() on a connected connection ends sending at once and is then under way. */
  lemma ShutdownTakesEffect(s: State, e: Event)
    requires Inv(s) && s.c.phase == Connected && (e == ShutdownHere || e == ShutdownElsewhere)
    ensures var t := Next(s, e);
            && t.c.phase == Disconnecting && t.c.accepted == s.c.accepted && t.c.out == s.c.out
            && forall data: bytes, answers :: Sent(t.c, data, answers) == t.c
  {
  }

  /** The next step of a half-close: post the functor, run it, or flush the backlog it waits for. */
  lemma FinishStep(s: State) returns (e: Event)
    requires Inv(s) && s.c.phase == Disconnecting && s.c.fins == 0
    ensures Enabled(s, e)
    ensures var t := Next(s, e);
            && t.c.phase == Disconnecting && t.c.accepted == s.c.accepted
            && (t.c.fins == 1 || Steps(t) < Steps(s))
  {
    if s.call == Posting {
      e := PostShutdown;
    } else if s.call == Queued {
      e := RunShutdown;
    } else {
      e := Writable([Wrote(|s.c.out|)]);
      assert s.c.out[|s.c.out|..] == [];
      assert WriteLoop([], []) == Written([], [], Drained);
      assert WriteLoop(s.c.out, [Wrote(|s.c.out|)]).end == Drained;
    }
  }

  function Steps(s: State): nat {
    match s.call
    case NotCalled => 0
    case Posting => 3
    case Queued => 2
    case Ran => 1
  }

  /** From every half-closed state there is a run after which SHUT_WR has been issued with every
      accepted byte at the kernel. */
  lemma {:induction false} CanFinish(s: State) returns (es: seq<Event>)
    requires Inv(s) && s.c.phase == Disconnecting
    ensures CanRun(s, es)
    ensures var t := Exec(s, es);
            t.c.phase == Disconnecting && t.c.fins == 1 && t.c.out == [] && t.c.taken == t.c.accepted == s.c.accepted
    decreases if s.c.fins == 1 then 0 else 1, Steps(s)
  {
    if s.c.fins == 1 {
      es := [];
    } else {
      var e := FinishStep(s);
      Preserved(s, e);
      var t := Next(s, e);
      hide Next, Enabled;
      var rest := CanFinish(t);
      es := [e] + rest;
      assert es[1..] == rest;
    }
  }
}
