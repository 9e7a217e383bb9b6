/**
 The object of log_sender/log_sender.cpp, on the queue, the codec and the connection it is
 made of.  Its steps are the loop-thread steps that LogPipeline.dfy interleaves with the
 producers.
 */
module LogSender {
  import opened Bytes
  import opened Framing
  import opened LogPipeline
  import Connection
  import Log = LogProtocol
  import Mpsc = MpscQueue

  type Script = nat -> seq<Connection.Answer>

  /** The connection after send_batch has sent entries i and on, or up to the one that broke it. */
  function SentAll(c: Connection.Conn, items: seq<Log.Item<bytes>>, i: nat, script: Script): Connection.Conn
    requires i <= |items|
    decreases |items| - i
  {
    if i == |items| || c.phase != Connection.Connected then c
    else SentAll(Connection.Sent(c, Frame(Payload(items[i])), script(i)), items, i + 1, script)
  }

  /** Does the loop of send_batch come round to an entry after the connection was reset? */
  predicate Faults(c: Connection.Conn, items: seq<Log.Item<bytes>>, i: nat, script: Script)
    requires i <= |items|
    decreases |items| - i
  {
    i < |items| && (c.phase != Connection.Connected ||
                    Faults(Connection.Sent(c, Frame(Payload(items[i])), script(i)), items, i + 1, script))
  }

  class LogSender {
    const queue: Mpsc.MpscQueue<bytes>
    const maxBatch: nat
    const highWaterMark: nat
    var connection: Connection.Connection?
    var paused: bool

    ghost predicate Valid()
      reads this, queue
    {
      queue.Valid()
    }

    constructor (capacity: nat, maxBatch: nat, mark: nat)
      ensures Valid() && connection == null && !paused && this.maxBatch == maxBatch && highWaterMark == mark
      ensures fresh(queue) && fresh(queue.slots)
    {
      queue := new Mpsc.MpscQueue(capacity);
      this.maxBatch, highWaterMark := maxBatch, mark;
      connection, paused := null, false;
    }

    /** on_connection, for a connection that came up or went down.  One that came up gets both
        callbacks, unless backpressure is switched off. */
    method OnConnection(conn: Connection.Connection)
      modifies this`connection, this`paused, conn`highWaterMark, conn`tellsDrained
      ensures !paused
      ensures connection == if conn.phase == Connection.Connected then conn else null
      ensures var installs := conn.phase == Connection.Connected && highWaterMark > 0;
              && conn.highWaterMark == (if installs then highWaterMark else old(conn.highWaterMark))
              && conn.tellsDrained == (installs || old(conn.tellsDrained))
    {
      if conn.phase == Connection.Connected && highWaterMark > 0 {
        conn.highWaterMark := highWaterMark;
        conn.tellsDrained := true;
      }
      connection := if conn.phase == Connection.Connected then conn else null;
      paused := false;
    }

    method OnHighWater()
      modifies this`paused
      ensures paused
    {
      paused := true;
    }

    method OnWriteComplete()
      modifies this`paused
      ensures !paused
    {
      if paused {
        paused := false;
      }
    }

    /** One round of the loop of send_batch, with the close callback if the write fails. */
    method SendOne(item: Log.Item<bytes>, answers: seq<Connection.Answer>)
      requires connection != null && connection.Valid() && connection.phase == Connection.Connected
      modifies this`connection, this`paused, connection, connection.output, connection.output.data
      ensures var c := old(connection);
              && c.Valid() && (c.output.data == old(connection.output.data) || fresh(c.output.data))
              && c.View() == Connection.Sent(old(connection.View()), Frame(Payload(item)), answers)
              && connection == (if c.phase == Connection.Connected then c else null)
    {
      hide Connection.Sent, Connection.Crosses, Frame, Payload;
      var c := connection;
      var data := EncodeFrame(Payload(item));
      var crossed := c.Send(data, answers);
      if c.phase != Connection.Connected {
        OnConnection(c);
      }
    }

    /** Encodes and sends the entries in order.  A write error closes the connection, whose
        callback resets connection_; `faulted` tells that the loop then went on to call send
        through it. */
    method SendBatch(batch: seq<Log.Item<bytes>>, script: Script) returns (faulted: bool)
      requires connection != null && connection.Valid() && connection.phase == Connection.Connected
      modifies this`connection, this`paused, connection, connection.output, connection.output.data
      ensures var c := old(connection);
              && c.Valid() && (c.output.data == old(connection.output.data) || fresh(c.output.data))
              && c.View() == SentAll(old(connection.View()), batch, 0, script)
              && connection == (if c.phase == Connection.Connected then c else null)
      ensures faulted <==> Faults(old(connection.View()), batch, 0, script)
    {
      var c := connection;
      ghost var start := c.View();
      faulted := false;
      var i := 0;
      while i < |batch|
        invariant i <= |batch|
        invariant c.Valid() && (c.output.data == old(connection.output.data) || fresh(c.output.data))
        invariant connection == if c.phase == Connection.Connected then c else null
        invariant SentAll(start, batch, 0, script) == SentAll(c.View(), batch, i, script)
        invariant Faults(start, batch, 0, script) <==> Faults(c.View(), batch, i, script)
      {
        hide Connection.Sent, Frame, Payload;
        if connection == null {
          return true;
        }
        SendOne(batch[i], script(i));
        i := i + 1;
      }
    }

    /** The batch that goes out: the loss report first, then at most maxBatch messages. */
    method CollectBatch() returns (batch: seq<Log.Item<bytes>>)
      requires Valid()
      modifies queue
      ensures Valid()
      ensures var q := old(queue.View());
              && batch == Log.Report(q.dropped) + Log.AsMessages(q.items[..Mpsc.TakenBy(q, maxBatch)])
              && queue.View() == (if maxBatch == 0 then Mpsc.ClearDropped(q)
                                  else Mpsc.Settle(Mpsc.Remove(Mpsc.ClearDropped(q), maxBatch)))
    {
      hide Mpsc.Ring, Mpsc.Settle, Mpsc.Remove, Log.Report, Log.AsMessages;
      ghost var q := queue.View();
      var dropped := queue.TakeDropped();
      assert Mpsc.TakenBy(queue.View(), maxBatch) == Mpsc.TakenBy(q, maxBatch);
      var values, took := queue.Drain([], maxBatch);
      assert values == q.items[..took];
      batch := Log.Report(dropped) + Log.AsMessages(values);
    }

    method DoDrainAndSend(script: Script) returns (batch: seq<Log.Item<bytes>>, faulted: bool)
      requires Valid() && connection != null && connection.Valid() && connection.phase == Connection.Connected
      modifies this`connection, this`paused, queue, connection, connection.output, connection.output.data
      ensures Valid()
      ensures var q := old(queue.View());
              && batch == Log.Report(q.dropped) + Log.AsMessages(q.items[..Mpsc.TakenBy(q, maxBatch)])
              && queue.View() == (if maxBatch == 0 then Mpsc.ClearDropped(q)
                                  else Mpsc.Settle(Mpsc.Remove(Mpsc.ClearDropped(q), maxBatch)))
      ensures var c := old(connection);
              && c.Valid() && c.View() == SentAll(old(connection.View()), batch, 0, script)
              && connection == (if c.phase == Connection.Connected then c else null)
      ensures faulted <==> Faults(old(connection.View()), batch, 0, script)
    {
      hide Mpsc.Ring, Mpsc.Settle, Mpsc.Remove, Mpsc.ClearDropped, Log.Report, Log.AsMessages;
      hide Connection.Sent, Frame, Payload;
      batch := CollectBatch();
      if batch == [] {
        return batch, false;
      }
      faulted := SendBatch(batch, script);
    }

    /** on_tick up to its next timer: with no connection, or paused, the queue is left alone. */
    method OnTick(script: Script) returns (drained: bool, batch: seq<Log.Item<bytes>>, faulted: bool)
      requires Valid() && (connection != null ==> connection.Valid())
      modifies this`connection, this`paused, queue, if connection == null then {} else Parts(connection)
      ensures Valid()
      ensures drained <==> old(connection) != null && old(connection.phase) == Connection.Connected && !old(paused)
      ensures !drained ==> batch == [] && !faulted && queue.View() == old(queue.View()) && connection == old(connection)
      ensures !drained && connection != null ==> connection.Valid() && connection.View() == old(connection.View())
      ensures drained ==>
              var q, c := old(queue.View()), old(connection);
              && batch == Log.Report(q.dropped) + Log.AsMessages(q.items[..Mpsc.TakenBy(q, maxBatch)])
              && c.Valid() && c.View() == SentAll(old(connection.View()), batch, 0, script)
    {
      if connection != null && connection.phase == Connection.Connected && !paused {
        batch, faulted := DoDrainAndSend(script);
        return true, batch, faulted;
      }
      return false, [], false;
    }
  }

  /** A connection and the storage it owns. */
  function Parts(c: Connection.Connection): set<object>
    reads c, c.output
  {
    {c, c.output, c.output.data}
  }

  /** How the write of entry k ends if it starts without a backlog. */
  function End(items: seq<Log.Item<bytes>>, script: Script, k: nat): Connection.End
    requires k < |items|
  {
    Connection.WriteLoop(Frame(Payload(items[k])), script(k)).end
  }

  /** Of the kernel's answers from entry i on, those for k are the first that do not take all
      of their entry, and they are an error. */
  ghost predicate FirstError(items: seq<Log.Item<bytes>>, i: nat, script: Script, k: nat) {
    && i <= k < |items| && End(items, script, k) == Connection.Broken
    && forall j :: i <= j < k ==> End(items, script, j) == Connection.Drained
  }

  lemma SendEnds(c: Connection.Conn, data: bytes, answers: seq<Connection.Answer>)
    requires c.phase == Connection.Connected && data != []
    ensures var d, end := Connection.Sent(c, data, answers), Connection.WriteLoop(data, answers).end;
            if c.out != [] then d.phase == Connection.Connected && d.out != []
            else && (d.phase == Connection.Connected <==> end != Connection.Broken)
                 && (d.out == [] <==> end != Connection.Blocked)
  {
    hide Connection.WriteLoop;
  }

  /** send_batch calls through an empty connection_ exactly when it starts without a backlog
      and the kernel, having taken every entry before it whole, fails the write of one that is
      not the last.  With a backlog it never does. */
  lemma {:induction false} FaultsIff(c: Connection.Conn, items: seq<Log.Item<bytes>>, i: nat, script: Script)
    requires i <= |items| && c.phase == Connection.Connected
    ensures Faults(c, items, i, script) <==>
            c.out == [] && exists k: nat :: k < |items| - 1 && FirstError(items, i, script, k)
    decreases |items| - i
  {
    if i == |items| {
    } else {
      var data := Frame(Payload(items[i]));
      var d := Connection.Sent(c, data, script(i));
      SendEnds(c, data, script(i));
      hide Connection.Sent, Connection.WriteLoop, Frame, Payload, FirstError;
      forall k: nat
        ensures FirstError(items, i, script, k) <==>
                (k == i && End(items, script, i) == Connection.Broken) ||
                (End(items, script, i) == Connection.Drained && FirstError(items, i + 1, script, k))
      {
        FirstErrorStep(items, i, script, k);
      }
      if d.phase == Connection.Connected {
        FaultsIff(d, items, i + 1, script);
        if Faults(d, items, i + 1, script) {
          var k: nat :| k < |items| - 1 && FirstError(items, i + 1, script, k);
          assert c.out == [] ==> FirstError(items, i, script, k);
        }
      } else {
        assert FirstError(items, i, script, i);
      }
    }
  }

  lemma FirstErrorStep(items: seq<Log.Item<bytes>>, i: nat, script: Script, k: nat)
    requires i < |items|
    ensures FirstError(items, i, script, k) <==>
            (k == i && End(items, script, i) == Connection.Broken) ||
            (End(items, script, i) == Connection.Drained && FirstError(items, i + 1, script, k))
  {
    hide End;
  }

  /** Two entries on a new connection, and the first write fails. */
  lemma FaultExample(a: Log.Item<bytes>, b: Log.Item<bytes>)
    ensures Faults(Connection.OPENED, [a, b], 0, _ => [Connection.Failed])
  {
    var script: Script := _ => [Connection.Failed];
    var data := Frame(Payload(a));
    assert Connection.WriteLoop(data, script(0)).end == Connection.Broken;
    assert FirstError([a, b], 0, script, 0);
    FaultsIff(Connection.OPENED, [a, b], 0, script);
  }

  // ----- what send_batch sends -----

  /** A batch that leaves the connection up has been accepted whole, entry by entry in order, on
      top of whatever backlog there was. */
  lemma {:induction false} BatchIsAccepted(c: Connection.Conn, items: seq<Log.Item<bytes>>, i: nat, script: Script)
    requires i <= |items| && c.phase == Connection.Connected
    requires SentAll(c, items, i, script).phase == Connection.Connected
    ensures SentAll(c, items, i, script).accepted == c.accepted + Frames(Payloads(items[i..]))
    decreases |items| - i
  {
    hide Connection.Sent, Frame, Payload, Payloads, Frames;
    FramesFrom(items, i);
    if i == |items| {
    } else {
      var data := Frame(Payload(items[i]));
      var d := Connection.Sent(c, data, script(i));
      Connection.SendAccepts(c, data, script(i));
      BatchIsAccepted(d, items, i + 1, script);
      var rest := Frames(Payloads(items[i + 1..]));
      assert c.accepted + data + rest == c.accepted + (data + rest);
    }
  }

  lemma FramesFrom(items: seq<Log.Item<bytes>>, i: nat)
    requires i <= |items|
    ensures Frames(Payloads(items[i..])) ==
            if i == |items| then [] else Frame(Payload(items[i])) + Frames(Payloads(items[i + 1..]))
  {
    hide Frame, Payload;
    var ps := Payloads(items[i..]);
    if i < |items| {
      assert ps[0] == Payload(items[i]) && ps[1..] == Payloads(items[i + 1..]);
    }
  }

  /** send_batch is the run of the pipeline that sends the entries at hand one after the other,
      with the kernel answering as the script says, up to the end of the batch or the entry that
      breaks the connection; something is left over exactly when the code would fault. */
  lemma {:induction false} BatchIsARun(s: State, items: seq<Log.Item<bytes>>, i: nat, script: Script)
      returns (es: seq<Event>)
    requires i <= |items| && s.toSend == items[i..]
    ensures CanRun(s, es)
    ensures var t := Exec(s, es);
            && t.c == SentAll(s.c, items, i, script) && t.sent + t.toSend == s.sent + s.toSend
            && (Open(t) ==> t.toSend == [])
            && (t.toSend != [] <==> Faults(s.c, items, i, script))
    decreases |items| - i
  {
    if i == |items| || !Open(s) {
      es := [];
    } else {
      var e := SendNext(script(i));
      var t := Next(s, e);
      assert t.toSend == items[i + 1..];
      assert s.sent + [s.toSend[0]] + s.toSend[1..] == s.sent + s.toSend;
      assert t.c == Connection.Sent(s.c, Frame(Payload(items[i])), script(i));
      hide Enabled, Next, Connection.Sent, Frame, Payload;
      var rest := BatchIsARun(t, items, i + 1, script);
      es := [e] + rest;
      assert es[1..] == rest;
    }
  }

  /** What CollectBatch promises is what the three drain sections of the queue protocol do when no
      producer comes between: the report first, then the oldest messages, and the flag settled. */
  lemma CollectIsARun(l: Log.State<bytes>, max: nat) returns (es: seq<Log.Event<bytes>>)
    requires l.drainer.Idle?
    ensures Log.CanRun(l, es)
    ensures var t := Log.Exec(l, es);
            && t.drainer == Log.Holding(Log.Report(l.q.dropped) + Log.AsMessages(l.q.items[..Mpsc.TakenBy(l.q, max)]))
            && t.q == (if max == 0 then Mpsc.ClearDropped(l.q)
                       else Mpsc.Settle(Mpsc.Remove(Mpsc.ClearDropped(l.q), max)))
  {
    var remove := Log.DrainRemove(max);
    var l1 := Log.Next(l, Log.TakeDropped);
    var l2 := Log.Next(l1, remove);
    if max == 0 {
      assert l.q.items[..Mpsc.TakenBy(l.q, max)] == [];
      assert Log.Report<bytes>(l.q.dropped) + Log.AsMessages([]) == Log.Report(l.q.dropped);
      assert Log.CanRun(l2, []) && Log.Exec(l2, []) == l2;
      hide Log.Next, Log.Enabled, Log.CanRun, Log.Exec, Log.Report, Log.AsMessages;
      Log.OneMore(l1, remove, []);
      es := [Log.TakeDropped] + ([remove] + []);
      Log.OneMore(l, Log.TakeDropped, [remove] + []);
    } else {
      var l3 := Log.Next(l2, Log.DrainSettle);
      assert Log.CanRun(l3, []) && Log.Exec(l3, []) == l3;
      assert Mpsc.TakenBy(l1.q, max) == Mpsc.TakenBy(l.q, max);
      hide Log.Next, Log.Enabled, Log.CanRun, Log.Exec, Log.Report, Log.AsMessages;
      Log.OneMore(l2, Log.DrainSettle, []);
      Log.OneMore(l1, remove, [Log.DrainSettle] + []);
      Log.OneMore(l, Log.TakeDropped, [remove] + ([Log.DrainSettle] + []));
      es := [Log.TakeDropped] + ([remove] + ([Log.DrainSettle] + []));
    }
  }
}
