/**
 The compacting byte buffer of util/buffer.h: one growable array, a reader index and
 a writer index.  Everything above it only sees the queue of unread bytes.
 */
module ByteBuffer {
  import opened Bytes

  const PREPEND_SIZE := 8
  const INITIAL_SIZE := 1024

  const CR: byte := 13
  const LF: byte := 10

  predicate CrlfAt(s: bytes, i: nat) {
    i + 1 < |s| && s[i] == CR && s[i + 1] == LF
  }

  /** Position of the first CR LF pair of s, if there is one. */
  function FirstCrlf(s: bytes): (r: Option<nat>)
    ensures r.Some? ==> CrlfAt(s, r.value)
    ensures forall j: nat :: (r.None? || j < r.value) ==> !CrlfAt(s, j)
  {
    FirstCrlfFrom(s, 0)
  }

  function FirstCrlfFrom(s: bytes, from: nat): (r: Option<nat>)
    requires from <= |s|
    ensures r.Some? ==> from <= r.value && CrlfAt(s, r.value)
    ensures forall j: nat :: from <= j && (r.None? || j < r.value) ==> !CrlfAt(s, j)
    decreases |s| - from
  {
    if CrlfAt(s, from) then Some(from)
    else if from == |s| then None
    else FirstCrlfFrom(s, from + 1)
  }

  class Buffer {
    var data: array<byte>
    var reader: nat
    var writer: nat

    ghost predicate Valid()
      reads this
    {
      PREPEND_SIZE <= reader <= writer <= data.Length
    }

    /** The abstract value: the unread bytes, oldest first. */
    ghost function Readable(): bytes
      requires Valid()
      reads this, data
    {
      data[reader..writer]
    }

    constructor ()
      ensures Valid() && fresh(data)
      ensures Readable() == []
    {
      data := new byte[PREPEND_SIZE + INITIAL_SIZE](_ => 0);
      reader := PREPEND_SIZE;
      writer := PREPEND_SIZE;
    }

    method ReadableBytes() returns (n: nat)
      requires Valid()
      ensures n == |Readable()|
    {
      n := writer - reader;
    }

    /** The byte `i` places after the start of the unread data. */
    method PeekAt(i: nat) returns (b: byte)
      requires Valid() && i < |Readable()|
      ensures b == Readable()[i]
    {
      b := data[reader + i];
    }

    /** The first len unread bytes, left in place. */
    method PeekString(len: nat) returns (s: bytes)
      requires Valid() && len <= |Readable()|
      ensures s == Readable()[..len]
    {
      s := data[reader..reader + len];
    }

    /** Moves the unread bytes down to the prepend mark; source and target overlap. */
    method Compact()
      requires Valid() && reader > PREPEND_SIZE
      modifies this, data
      ensures Valid() && data == old(data)
      ensures reader == PREPEND_SIZE && Readable() == old(Readable())
    {
      var readable := writer - reader;
      ghost var unread := Readable();
      for i := 0 to readable
        modifies data
        invariant forall j :: PREPEND_SIZE <= j < PREPEND_SIZE + i ==> data[j] == unread[j - PREPEND_SIZE]
        invariant forall j :: reader + i <= j < writer ==> data[j] == unread[j - reader]
      {
        data[PREPEND_SIZE + i] := data[reader + i];
      }
      reader := PREPEND_SIZE;
      writer := reader + readable;
    }

    method Grow(size: nat)
      requires Valid() && size > data.Length
      modifies this
      ensures Valid() && fresh(data) && data.Length == size
      ensures reader == old(reader) && writer == old(writer) && Readable() == old(Readable())
    {
      var grown := new byte[size](_ => 0);
      for i := 0 to data.Length
        modifies grown
        invariant grown[..i] == data[..i]
      {
        grown[i] := data[i];
      }
      assert grown[reader..writer] == grown[..data.Length][reader..writer] == data[..][reader..writer];
      data := grown;
    }

    /** Frees `len` bytes behind the writer, by an overlapping move when the consumed
        prefix is large enough and by growth otherwise. */
    method EnsureWritable(len: nat)
      requires Valid()
      modifies this, data
      ensures Valid() && (data == old(data) || fresh(data))
      ensures Readable() == old(Readable())
      ensures data.Length - writer >= len
      ensures data == old(data) <==>
              (old(data.Length - writer) >= len || old(data.Length - writer + reader) >= len + PREPEND_SIZE)
      ensures data != old(data) ==> data.Length == old(writer) + len
    {
      if data.Length - writer >= len {
        return;
      }
      if data.Length - writer + reader >= len + PREPEND_SIZE {
        Compact();
      } else {
        Grow(writer + len);
      }
    }

    /** Copies s into the free space behind the writer. */
    method Write(s: bytes)
      requires Valid() && |s| <= data.Length - writer
      modifies this, data
      ensures Valid() && data == old(data)
      ensures Readable() == old(Readable()) + s
    {
      ghost var unread := Readable();
      for i := 0 to |s|
        modifies data
        invariant data[reader..writer] == unread
        invariant data[writer..writer + i] == s[..i]
      {
        data[writer + i] := s[i];
      }
      assert data[reader..writer + |s|] == unread + s;
      writer := writer + |s|;
    }

    method Append(s: bytes)
      requires Valid()
      modifies this, data
      ensures Valid() && (data == old(data) || fresh(data))
      ensures Readable() == old(Readable()) + s
    {
      EnsureWritable(|s|);
      Write(s);
    }

    method RetrieveAll()
      requires Valid()
      modifies this
      ensures Valid() && data == old(data)
      ensures Readable() == []
    {
      reader := PREPEND_SIZE;
      writer := PREPEND_SIZE;
    }

    /** Consumes `len` bytes; asking for more than there are consumes them all. */
    method Retrieve(len: nat)
      requires Valid()
      modifies this
      ensures Valid() && data == old(data)
      ensures Readable() == if len >= |old(Readable())| then [] else old(Readable())[len..]
    {
      if len >= writer - reader {
        RetrieveAll();
      } else {
        reader := reader + len;
      }
    }

    method RetrieveAsString(len: nat) returns (s: bytes)
      requires Valid() && len <= |Readable()|
      modifies this
      ensures Valid() && data == old(data)
      ensures s == old(Readable())[..len]
      ensures Readable() == old(Readable())[len..]
    {
      s := data[reader..reader + len];
      Retrieve(len);
    }

    method Find() returns (r: Option<nat>)
      requires Valid()
      ensures r == FirstCrlf(Readable())
    {
      var i := 0;
      while i < writer - reader
        invariant 0 <= i <= writer - reader
        invariant FirstCrlfFrom(Readable(), i) == FirstCrlf(Readable())
      {
        if reader + i + 1 < writer && data[reader + i] == CR && data[reader + i + 1] == LF {
          return Some(i);
        }
        i := i + 1;
      }
      r := None;
    }

    /** Any sequence of operations acts on the unread bytes as on a queue. */
    method Perform(ops: seq<Operation>)
      requires Valid()
      modifies this, data
      ensures Valid() && (data == old(data) || fresh(data))
      ensures Readable() == Replay(old(Readable()), ops).queue
    {
      ghost var start := Readable();
      var i := 0;
      while i < |ops|
        invariant 0 <= i <= |ops|
        invariant Valid() && (data == old(data) || fresh(data))
        invariant Replay(start, ops).queue == Replay(Readable(), ops[i..]).queue
      {
        match ops[i] {
          case Put(s) => Append(s);
          case Drop(n) => Retrieve(n);
          case Reserve(n) => EnsureWritable(n);
        }
        assert ops[i..][1..] == ops[i + 1..];
        i := i + 1;
      }
    }
  }

  datatype Operation = Put(s: bytes) | Drop(n: nat) | Reserve(n: nat)

  /** The abstract queue after one operation, and what the operation took out of it. */
  function Advance(queue: bytes, op: Operation): (r: (bytes, bytes))
    ensures r.1 + r.0 == queue + (if op.Put? then op.s else [])
  {
    match op
    case Put(s) => (queue + s, [])
    case Drop(n) => if n >= |queue| then ([], queue) else (queue[n..], queue[..n])
    case Reserve(_) => (queue, [])
  }

  /** An operation takes out what it is asked to, as far as there is. */
  lemma AdvanceTakes(queue: bytes, op: Operation)
    ensures |Advance(queue, op).1| == if !op.Drop? then 0 else if op.n < |queue| then op.n else |queue|
  {
  }

  datatype Replayed = Replayed(queue: bytes, consumed: bytes)

  function Replay(queue: bytes, ops: seq<Operation>): Replayed
    decreases |ops|
  {
    if ops == [] then
      Replayed(queue, [])
    else
      var (next, out) := Advance(queue, ops[0]);
      var rest := Replay(next, ops[1..]);
      Replayed(rest.queue, out + rest.consumed)
  }

  function Appended(ops: seq<Operation>): bytes {
    if ops == [] then [] else (if ops[0].Put? then ops[0].s else []) + Appended(ops[1..])
  }

  /** Nothing is lost, duplicated or reordered, whatever the operations were. */
  lemma {:induction false} ReplayConserves(queue: bytes, ops: seq<Operation>)
    ensures Replay(queue, ops).consumed + Replay(queue, ops).queue == queue + Appended(ops)
    decreases |ops|
  {
    if ops == [] {
    } else {
      var (next, out) := Advance(queue, ops[0]);
      var rest := Replay(next, ops[1..]);
      var put := if ops[0].Put? then ops[0].s else [];
      calc {
        out + rest.consumed + rest.queue;
        out + (rest.consumed + rest.queue);
        { ReplayConserves(next, ops[1..]); }
        out + (next + Appended(ops[1..]));
        (out + next) + Appended(ops[1..]);
        (queue + put) + Appended(ops[1..]);
        queue + (put + Appended(ops[1..]));
      }
    }
  }
}
