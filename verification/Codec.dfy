/** Byte-level helpers shared by the wire formats. */
module Codec {
  type Byte = b: int | 0 <= b < 256
  type Bytes = seq<Byte>

  function Concat(parts: seq<Bytes>): Bytes {
    if parts == [] then [] else Concat(parts[..|parts| - 1]) + parts[|parts| - 1]
  }

  lemma {:induction false} ConcatAdd(parts: seq<Bytes>, p: Bytes)
    ensures Concat(parts + [p]) == Concat(parts) + p
  {
    assert (parts + [p])[..|parts|] == parts;
  }

  lemma {:induction false} ConcatSplit(ps: seq<Bytes>, qs: seq<Bytes>)
    ensures Concat(ps + qs) == Concat(ps) + Concat(qs)
  {
    if qs == [] {
      assert ps + qs == ps;
    } else {
      var rest, last := qs[..|qs| - 1], qs[|qs| - 1];
      ConcatSplit(ps, rest);
      hide Concat;
      assert ps + qs == (ps + rest) + [last] && qs == rest + [last];
      ConcatAdd(ps + rest, last);
      ConcatAdd(rest, last);
      assert Concat(ps) + Concat(rest) + last == Concat(ps) + (Concat(rest) + last);
    }
  }

  lemma {:induction false} ConcatPrefix(parts: seq<Bytes>, k: nat)
    requires k <= |parts|
    ensures |Concat(parts[..k])| <= |Concat(parts)|
  {
    assert parts == parts[..k] + parts[k..];
    ConcatSplit(parts[..k], parts[k..]);
  }

  /** `out.set(p, off)` */
  method SetAt(out: array<Byte>, p: Bytes, off: nat)
    requires off + |p| <= out.Length
    modifies out
    ensures out[..] == old(out[..off]) + p + old(out[off + |p|..])
  {
    for i := 0 to |p|
      invariant forall k :: 0 <= k < i ==> out[off + k] == p[k]
      invariant forall k :: 0 <= k < out.Length && !(off <= k < off + i) ==> out[k] == old(out[k])
    {
      out[off + i] := p[i];
    }
  }

  method ConcatBytes(parts: seq<Bytes>) returns (out: array<Byte>)
    ensures fresh(out) && out[..] == Concat(parts)
  {
    var total := 0;
    for i := 0 to |parts|
      invariant total == |Concat(parts[..i])|
    {
      assert parts[..i + 1][..i] == parts[..i];
      total := total + |parts[i]|;
    }
    assert parts[..|parts|] == parts;
    out := new Byte[total](_ => 0);
    var off := 0;
    for i := 0 to |parts|
      invariant off == |Concat(parts[..i])| <= out.Length
      invariant out[..off] == Concat(parts[..i])
    {
      assert parts[..i + 1][..i] == parts[..i];
      ConcatPrefix(parts, i + 1);
      SetAt(out, parts[i], off);
      off := off + |parts[i]|;
    }
    assert out[..] == out[..off];
  }

  lemma {:induction false} OrZero(d: bv8, x: bv8, y: bv8)
    ensures (d | (x ^ y)) == 0 <==> d == 0 && x == y
  {}

  /** The constant-time comparison: no early exit, every difference is folded in. */
  method BytesEqual(a: seq<bv8>, b: seq<bv8>) returns (equal: bool)
    ensures equal <==> a == b
  {
    if |a| != |b| { return false; }
    var d: bv8 := 0;
    for i := 0 to |a|
      invariant d == 0 <==> a[..i] == b[..i]
    {
      OrZero(d, a[i], b[i]);
      assert a[..i + 1] == a[..i] + [a[i]] && b[..i + 1] == b[..i] + [b[i]];
      d := d | (a[i] ^ b[i]);
    }
    assert a[..|a|] == a && b[..|b|] == b;
    equal := d == 0;
  }

  // ---------------------------------------------------------------------------
  // Fixed-width integers

  /** The low `k` bytes of `n`, most significant first. */
  function BigEndian(n: nat, k: nat): Bytes {
    if k == 0 then [] else BigEndian(n / 256, k - 1) + [n % 256]
  }

  function Power256(k: nat): nat { if k == 0 then 1 else 256 * Power256(k - 1) }

  lemma {:induction false} BigEndianLength(n: nat, k: nat)
    ensures |BigEndian(n, k)| == k
  {
    if k > 0 { BigEndianLength(n / 256, k - 1); }
  }

  lemma {:induction false} BigEndianInjective(m: nat, n: nat, k: nat)
    requires m < Power256(k) && n < Power256(k) && BigEndian(m, k) == BigEndian(n, k)
    ensures m == n
  {
    if k > 0 {
      var a, b := BigEndian(m / 256, k - 1), BigEndian(n / 256, k - 1);
      BigEndianLength(m / 256, k - 1);
      BigEndianLength(n / 256, k - 1);
      assert a + [m % 256] == b + [n % 256];
      assert a == (a + [m % 256])[..k - 1] == b;
      assert m % 256 == (a + [m % 256])[k - 1] == n % 256;
      BigEndianInjective(m / 256, n / 256, k - 1);
    }
  }

  /** `epochBytes` */
  function EpochBytes(n: nat): Bytes { BigEndian(n, 8) }

  const UINT64: nat := 0x1_0000_0000_0000_0000

  lemma {:induction false} EpochBytesInjective(m: nat, n: nat)
    requires m < UINT64 && n < UINT64 && EpochBytes(m) == EpochBytes(n)
    ensures m == n
  {
    assert Power256(2) == 0x1_0000;
    assert Power256(4) == 0x1_0000_0000;
    assert Power256(6) == 0x1_0000_0000_0000;
    assert Power256(8) == UINT64;
    BigEndianInjective(m, n, 8);
  }

  /** The loop that fills the buffer from its end. */
  method WriteEpochBytes(n: nat) returns (out: array<Byte>)
    ensures fresh(out) && out[..] == EpochBytes(n)
  {
    out := new Byte[8](_ => 0);
    var v, i := n, 8;
    BigEndianLength(n, 8);
    while i > 0
      invariant 0 <= i <= 8
      invariant BigEndian(n, 8) == BigEndian(v, i) + out[i..]
    {
      i := i - 1;
      BigEndianLength(v / 256, i);
      out[i] := v % 256;
      assert out[i..] == [v % 256] + out[i + 1..];
      assert BigEndian(v, i + 1) + out[i + 1..] == BigEndian(v / 256, i) + ([v % 256] + out[i + 1..]);
      v := v / 256;
    }
  }
}
