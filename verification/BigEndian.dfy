/** Fixed-width big-endian integers, written and read byte by byte as both codecs do. */
module BigEndian {
  import opened Arithmetic
  import opened Bytes

  function Pow256(w: nat): (r: nat)
    ensures r > 0
  {
    if w == 0 then 1 else 256 * Pow256(w - 1)
  }

  /** The w low-order octets of v, most significant first. */
  function Octets(v: nat, w: nat): (r: bytes)
    ensures |r| == w
  {
    if w == 0 then [] else Octets(v / 256, w - 1) + [v % 256]
  }

  function Value(s: bytes): nat {
    if s == [] then 0 else Value(s[..|s| - 1]) * 256 + s[|s| - 1]
  }

  lemma {:induction false} ValueBound(s: bytes)
    ensures Value(s) < Pow256(|s|)
  {
    if s == [] {
    } else {
      ValueBound(s[..|s| - 1]);
    }
  }

  lemma {:induction false} ValueOfOctets(v: nat, w: nat)
    requires v < Pow256(w)
    ensures Value(Octets(v, w)) == v
  {
    if w == 0 {
    } else {
      ValueOfOctets(v / 256, w - 1);
      assert Octets(v, w)[..w - 1] == Octets(v / 256, w - 1);
    }
  }

  lemma {:induction false} OctetsOfValue(s: bytes)
    ensures Octets(Value(s), |s|) == s
  {
    if s == [] {
    } else {
      var front, last := s[..|s| - 1], s[|s| - 1];
      OctetsOfValue(front);
      assert (Value(front) * 256 + last) / 256 == Value(front);
      assert s == front + [last];
    }
  }

  lemma {:induction false} Pow256Monotone(a: nat, b: nat)
    requires a <= b
    ensures Pow256(a) <= Pow256(b)
  {
    if a == b {
    } else {
      Pow256Monotone(a, b - 1);
    }
  }

  /** v shifted right by k octets. */
  function Shift(v: nat, k: nat): nat {
    if k == 0 then v else Shift(v, k - 1) / 256
  }

  /** Appends v to s from the highest shift down to shift 0. */
  method Append(s: bytes, v: nat, w: nat) returns (out: bytes)
    ensures out == s + Octets(v, w)
  {
    out := s;
    var k := w;
    while k > 0
      invariant 0 <= k <= w
      invariant out == s + Octets(Shift(v, k), w - k)
    {
      k := k - 1;
      var shifted := Shift(v, k);
      assert out + [shifted % 256] == s + (Octets(shifted / 256, w - k - 1) + [shifted % 256]);
      out := out + [shifted % 256];
    }
  }

  lemma {:induction false} AccumulateStep(s: bytes, i: nat)
    requires i < |s|
    ensures (Value(s[..i]) * 256 + s[i]) % Pow256(|s|) == Value(s[..i + 1])
  {
    var t := s[..i + 1];
    assert t[..i] == s[..i];
    ValueBound(t);
    Pow256Monotone(i + 1, |s|);
    SmallModulus(Value(t), Pow256(|s|));
  }

  /** Accumulates w octets in a w-octet register; the register never wraps. */
  method Read(s: bytes, w: nat) returns (v: nat)
    requires |s| == w
    ensures v == Value(s)
  {
    v := 0;
    for i := 0 to w
      invariant v == Value(s[..i])
    {
      AccumulateStep(s, i);
      v := (v * 256 + s[i]) % Pow256(w);
    }
    assert s[..w] == s;
  }
}
