/**
 The inner RPC codec of rpc/rpc_message.h: a 15-byte big-endian header (type, request id,
 status, method length), the method name and the body, carried inside one length-prefixed
 frame.
 */
module RpcCodec {
  import opened Bytes
  import opened Framing
  import BigEndian

  const HEADER_LEN := 15
  const MAX_METHOD_LEN := 0xFFFF
  const TYPE_COUNT := 2

  /** `kind` is the raw type octet: 0 request, 1 response, 2 and above are no type. */
  datatype RpcMessage = RpcMessage(kind: byte, requestId: nat, status: nat, methodName: bytes, body: bytes)

  /** The ranges of the uint64 and uint32 fields. */
  predicate WellTyped(m: RpcMessage) {
    m.requestId < BigEndian.Pow256(8) && m.status < BigEndian.Pow256(4)
  }

  predicate Encodable(m: RpcMessage) {
    m.kind < TYPE_COUNT && |m.methodName| <= MAX_METHOD_LEN
  }

  function Header(m: RpcMessage): (r: bytes)
    ensures |r| == HEADER_LEN
  {
    [m.kind] + BigEndian.Octets(m.requestId, 8) + BigEndian.Octets(m.status, 4) + BigEndian.Octets(|m.methodName|, 2)
  }

  /** An over-long method name is refused with the empty payload. */
  function Encode(m: RpcMessage): bytes {
    if |m.methodName| > MAX_METHOD_LEN then [] else Header(m) + m.methodName + m.body
  }

  function MethodLength(payload: bytes): nat
    requires |payload| >= HEADER_LEN
  {
    BigEndian.Value(payload[13..15])
  }

  function Decode(payload: bytes): Option<RpcMessage> {
    if |payload| < HEADER_LEN || payload[0] >= TYPE_COUNT then
      None
    else if MethodLength(payload) > |payload| - HEADER_LEN then
      None
    else
      var n := HEADER_LEN + MethodLength(payload);
      Some(RpcMessage(payload[0], BigEndian.Value(payload[1..9]), BigEndian.Value(payload[9..13]),
                      payload[HEADER_LEN..n], payload[n..]))
  }

  method EncodeMessage(m: RpcMessage) returns (out: bytes)
    ensures out == Encode(m)
  {
    if |m.methodName| > MAX_METHOD_LEN {
      return [];
    }
    out := [m.kind];
    out := BigEndian.Append(out, m.requestId, 8);
    out := BigEndian.Append(out, m.status, 4);
    out := BigEndian.Append(out, |m.methodName|, 2);
    out := out + m.methodName;
    out := out + m.body;
  }

  /** Writes the result only when every check has passed; a refusal leaves it as it was. */
  method DecodeMessage(payload: bytes, before: RpcMessage) returns (ok: bool, out: RpcMessage)
    ensures ok <==> Decode(payload).Some?
    ensures out == if ok then Decode(payload).value else before
  {
    out := before;
    if |payload| < HEADER_LEN {
      return false, before;
    }
    var kind := payload[0];
    if kind >= TYPE_COUNT {
      return false, before;
    }
    var methodLen := BigEndian.Read(payload[13..15], 2);
    if methodLen > |payload| - HEADER_LEN {
      return false, before;
    }
    var requestId := BigEndian.Read(payload[1..9], 8);
    var status := BigEndian.Read(payload[9..13], 4);
    var start := HEADER_LEN + methodLen;
    out := RpcMessage(kind, requestId, status, payload[HEADER_LEN..start], payload[start..]);
    ok := true;
  }

  lemma HeaderFields(m: RpcMessage, tail: bytes)
    ensures var p := Header(m) + tail;
            && p[0] == m.kind
            && p[1..9] == BigEndian.Octets(m.requestId, 8)
            && p[9..13] == BigEndian.Octets(m.status, 4)
            && p[13..15] == BigEndian.Octets(|m.methodName|, 2)
            && p[15..] == tail
  {
  }

  /** Where everything stands in an encoded message. */
  lemma EncodeLayout(m: RpcMessage)
    requires |m.methodName| <= MAX_METHOD_LEN
    ensures var p, n := Encode(m), HEADER_LEN + |m.methodName|;
            && |p| == n + |m.body| && p[0] == m.kind
            && p[1..9] == BigEndian.Octets(m.requestId, 8)
            && p[9..13] == BigEndian.Octets(m.status, 4)
            && p[13..15] == BigEndian.Octets(|m.methodName|, 2)
            && p[HEADER_LEN..n] == m.methodName && p[n..] == m.body
  {
    hide Header;
    assert Encode(m) == Header(m) + (m.methodName + m.body);
    HeaderFields(m, m.methodName + m.body);
  }

  lemma DecodeAfterEncode(m: RpcMessage)
    requires WellTyped(m) && Encodable(m)
    ensures Decode(Encode(m)) == Some(m)
  {
    hide Header;
    var p := Encode(m);
    assert p == Header(m) + (m.methodName + m.body);
    HeaderFields(m, m.methodName + m.body);
    BigEndian.ValueOfOctets(m.requestId, 8);
    BigEndian.ValueOfOctets(m.status, 4);
    assert BigEndian.Pow256(2) == 256 * BigEndian.Pow256(1);
    BigEndian.ValueOfOctets(|m.methodName|, 2);
    var n := HEADER_LEN + |m.methodName|;
    assert p[15..n] == m.methodName && p[n..] == m.body;
  }

  /** Decoding loses nothing: the accepted payload is the encoding of the result. */
  lemma EncodeAfterDecode(payload: bytes)
    requires Decode(payload).Some?
    ensures var m := Decode(payload).value;
            WellTyped(m) && Encodable(m) && Encode(m) == payload
  {
    var m := Decode(payload).value;
    var n := HEADER_LEN + |m.methodName|;
    BigEndian.ValueBound(payload[1..9]);
    BigEndian.ValueBound(payload[9..13]);
    BigEndian.ValueBound(payload[13..15]);
    assert BigEndian.Pow256(2) == 256 * BigEndian.Pow256(1);
    BigEndian.OctetsOfValue(payload[1..9]);
    BigEndian.OctetsOfValue(payload[9..13]);
    BigEndian.OctetsOfValue(payload[13..15]);
    assert Header(m) == payload[..15] by {
      assert payload[..15] == [payload[0]] + payload[1..9] + payload[9..13] + payload[13..15];
    }
    assert payload == payload[..15] + payload[15..n] + payload[n..];
  }

  /** A message survives exactly when its type is known and its method name fits. */
  lemma RoundTripIff(m: RpcMessage)
    requires WellTyped(m)
    ensures Decode(Encode(m)) == Some(m) <==> Encodable(m)
  {
    if Encodable(m) {
      DecodeAfterEncode(m);
    } else if Decode(Encode(m)) == Some(m) {
      EncodeAfterDecode(Encode(m));
    }
  }

  /** The accepted payloads are exactly the encodings of encodable messages. */
  lemma AcceptsExactlyTheImage(payload: bytes)
    ensures Decode(payload).Some? <==> exists m :: WellTyped(m) && Encodable(m) && Encode(m) == payload
  {
    if Decode(payload).Some? {
      EncodeAfterDecode(payload);
    }
    forall m | WellTyped(m) && Encodable(m) && Encode(m) == payload
      ensures Decode(payload).Some?
    {
      DecodeAfterEncode(m);
    }
  }

  // ----- both layers -----

  function Payloads(ms: seq<RpcMessage>): (r: seq<bytes>)
    ensures |r| == |ms| && forall i :: 0 <= i < |ms| ==> r[i] == Encode(ms[i])
  {
    seq(|ms|, i requires 0 <= i < |ms| => Encode(ms[i]))
  }

  /** What a peer makes of the received frames: the messages, or None at the first bad one. */
  function Messages(frames: seq<bytes>): Option<seq<RpcMessage>> {
    if frames == [] then
      Some([])
    else
      match Decode(frames[0])
      case None => None
      case Some(m) =>
        var rest := Messages(frames[1..]);
        if rest.None? then None else Some([m] + rest.value)
  }

  lemma {:induction false} MessagesOfPayloads(ms: seq<RpcMessage>)
    requires forall m :: m in ms ==> WellTyped(m) && Encodable(m)
    ensures Messages(Payloads(ms)) == Some(ms)
  {
    hide Encode, Decode, WellTyped, Encodable;
    if ms == [] {
    } else {
      var ps := Payloads(ms);
      assert ps[1..] == Payloads(ms[1..]);
      assert ms[0] in ms;
      DecodeAfterEncode(ms[0]);
      MessagesOfPayloads(ms[1..]);
      assert [ms[0]] + ms[1..] == ms;
    }
  }

  /** Any list of messages within the limits, framed twice and cut into packets anywhere,
      arrives as the same list with no byte left over. */
  lemma TwoLayerRoundTrip(ms: seq<RpcMessage>, chunks: seq<bytes>, max: nat)
    requires max <= SAFE_LIMIT
    requires forall m :: m in ms ==> WellTyped(m) && Encodable(m) && |Encode(m)| <= max
    requires Flatten(chunks) == Frames(Payloads(ms))
    ensures var r := Feed(FRESH, chunks, max);
            r.verdict == Good && r.rest == [] && Messages(r.frames) == Some(ms)
  {
    BoundariesDoNotMatter(chunks, max);
    forall p | p in Payloads(ms)
      ensures Sendable(p, max)
    {
      var i :| 0 <= i < |ms| && Payloads(ms)[i] == p;
      assert ms[i] in ms;
    }
    RoundTrip(Payloads(ms), max);
    MessagesOfPayloads(ms);
  }
}
