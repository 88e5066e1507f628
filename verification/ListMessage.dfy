/** The message under a device list's signature: canonical, order-independent, and
    binding for everything a verifier relies on. */
module ListMessage {
  import opened Codec
  import opened DeviceList
  import opened Sums

  // ---------------------------------------------------------------------------
  // Ordering keys

  function CmpFrom(a: Bytes, b: Bytes, i: nat): int
    decreases |a| - i
  {
    if i < |a| && i < |b| then (if a[i] != b[i] then a[i] - b[i] else CmpFrom(a, b, i + 1))
    else |a| - |b|
  }

  /** `cmpBytes` */
  function Cmp(a: Bytes, b: Bytes): int { CmpFrom(a, b, 0) }

  method CmpBytes(a: Bytes, b: Bytes) returns (c: int)
    ensures c == Cmp(a, b)
  {
    var m := if |a| < |b| then |a| else |b|;
    for i := 0 to m
      invariant Cmp(a, b) == CmpFrom(a, b, i)
    {
      if a[i] != b[i] { return a[i] as int - b[i] as int; }
    }
    return |a| - |b|;
  }

  lemma {:induction false} CmpAntisymmetric(a: Bytes, b: Bytes, i: nat)
    ensures CmpFrom(a, b, i) == -CmpFrom(b, a, i)
    decreases |a| - i
  {
    if i < |a| && i < |b| { CmpAntisymmetric(a, b, i + 1); }
  }

  lemma {:induction false} CmpZero(a: Bytes, b: Bytes, i: nat)
    requires i <= |a| && i <= |b|
    ensures CmpFrom(a, b, i) == 0 ==> |a| == |b| && a[i..] == b[i..]
    decreases |a| - i
  {
    if i < |a| && i < |b| {
      CmpZero(a, b, i + 1);
      assert a[i..] == [a[i]] + a[i + 1..] && b[i..] == [b[i]] + b[i + 1..];
    }
  }

  lemma {:induction false} CmpSelf(a: Bytes, i: nat)
    ensures CmpFrom(a, a, i) == 0
    decreases |a| - i
  {
    if i < |a| { CmpSelf(a, i + 1); }
  }

  /** Comparing to zero means equal, and the two directions agree. */
  lemma {:induction false} CmpTotal(a: Bytes, b: Bytes)
    ensures Cmp(a, b) == -Cmp(b, a)
    ensures Cmp(a, b) == 0 <==> a == b
  {
    CmpAntisymmetric(a, b, 0);
    CmpZero(a, b, 0);
    CmpSelf(a, 0);
    assert a[0..] == a && b[0..] == b;
  }

  lemma {:induction false} CmpTransitive(a: Bytes, b: Bytes, c: Bytes, i: nat)
    requires CmpFrom(a, b, i) < 0 && CmpFrom(b, c, i) < 0
    ensures CmpFrom(a, c, i) < 0
    decreases |b| - i
  {
    if i < |a| && i < |b| && i < |c| && a[i] == b[i] && b[i] == c[i] { CmpTransitive(a, b, c, i + 1); }
  }

  // ---------------------------------------------------------------------------
  // Sorting by signing key

  ghost predicate Ascending(ds: seq<DeviceEntry>) {
    forall i, j :: 0 <= i < j < |ds| ==> Cmp(ds[i].signPub, ds[j].signPub) < 0
  }

  function Insert(s: seq<DeviceEntry>, d: DeviceEntry): seq<DeviceEntry> {
    if s == [] || Cmp(s[|s| - 1].signPub, d.signPub) <= 0 then s + [d]
    else Insert(s[..|s| - 1], d) + [s[|s| - 1]]
  }

  /** `[...devices].sort(...)` */
  function Sort(ds: seq<DeviceEntry>): seq<DeviceEntry> {
    if ds == [] then [] else Insert(Sort(ds[..|ds| - 1]), ds[|ds| - 1])
  }

  lemma {:induction false} InsertPermutes(s: seq<DeviceEntry>, d: DeviceEntry)
    ensures multiset(Insert(s, d)) == multiset(s) + multiset{d}
    ensures forall e :: e in Insert(s, d) <==> e in s || e == d
  {
    hide Cmp;
    if s != [] && Cmp(s[|s| - 1].signPub, d.signPub) > 0 {
      InsertPermutes(s[..|s| - 1], d);
      assert s == s[..|s| - 1] + [s[|s| - 1]];
    }
  }

  lemma {:induction false} SortPermutes(ds: seq<DeviceEntry>)
    ensures multiset(Sort(ds)) == multiset(ds)
    ensures forall e :: e in Sort(ds) <==> e in ds
  {
    hide Insert;
    if ds != [] {
      var rest, last := ds[..|ds| - 1], ds[|ds| - 1];
      assert ds == rest + [last];
      SortPermutes(rest);
      InsertPermutes(Sort(rest), last);
    }
  }

  lemma {:induction false} InsertAscending(s: seq<DeviceEntry>, d: DeviceEntry)
    requires Ascending(s) && forall e :: e in s ==> e.signPub != d.signPub
    ensures Ascending(Insert(s, d))
  {
    hide Cmp;
    if s != [] {
      var rest, last := s[..|s| - 1], s[|s| - 1];
      CmpTotal(last.signPub, d.signPub);
      if Cmp(last.signPub, d.signPub) > 0 {
        InsertAscending(rest, d);
        InsertPermutes(rest, d);
        BelowLast(Insert(rest, d), rest, d, last);
      } else {
        AboveAll(s, d);
      }
    }
  }

  lemma {:induction false} BelowLast(t: seq<DeviceEntry>, rest: seq<DeviceEntry>, d: DeviceEntry, last: DeviceEntry)
    requires Ascending(t) && Ascending(rest + [last]) && Cmp(d.signPub, last.signPub) < 0
    requires forall e :: e in t ==> e in rest || e == d
    ensures Ascending(t + [last])
  {
    hide Cmp;
    var u, s := t + [last], rest + [last];
    forall i, j | 0 <= i < j < |u| ensures Cmp(u[i].signPub, u[j].signPub) < 0 {
      if j == |t| && u[i] != d {
        assert u[i] in t;
        var k :| 0 <= k < |rest| && rest[k] == u[i];
        assert s[k] == u[i] && s[|rest|] == last;
      }
    }
  }

  lemma {:induction false} AboveAll(s: seq<DeviceEntry>, d: DeviceEntry)
    requires Ascending(s) && s != [] && Cmp(s[|s| - 1].signPub, d.signPub) < 0
    ensures Ascending(s + [d])
  {
    hide Cmp;
    var u, last := s + [d], s[|s| - 1];
    forall i, j | 0 <= i < j < |u| ensures Cmp(u[i].signPub, u[j].signPub) < 0 {
      if j == |s| && i < |s| - 1 { LessThrough(u[i].signPub, last.signPub, d.signPub); }
    }
  }

  lemma {:induction false} LessThrough(a: Bytes, b: Bytes, c: Bytes)
    requires Cmp(a, b) < 0 && Cmp(b, c) < 0
    ensures Cmp(a, c) < 0
  {
    CmpTransitive(a, b, c, 0);
  }

  lemma {:induction false} SortAscending(ds: seq<DeviceEntry>)
    requires DistinctDevices(ds)
    ensures Ascending(Sort(ds))
  {
    hide Insert, Cmp;
    if ds != [] {
      var rest, last := ds[..|ds| - 1], ds[|ds| - 1];
      SortAscending(rest);
      SortPermutes(rest);
      forall e | e in Sort(rest) ensures e.signPub != last.signPub {
        var i :| 0 <= i < |rest| && rest[i] == e;
        assert ds[i] == e;
      }
      InsertAscending(Sort(rest), last);
    }
  }

  lemma {:induction false} LastIsLargest(s: seq<DeviceEntry>, e: DeviceEntry)
    requires Ascending(s) && e in s
    ensures e == s[|s| - 1] || Cmp(e.signPub, s[|s| - 1].signPub) < 0
  {
    hide Cmp;
    var i :| 0 <= i < |s| && s[i] == e;
  }

  lemma {:induction false} LastAgrees(s: seq<DeviceEntry>, t: seq<DeviceEntry>)
    requires s != [] && t != [] && Ascending(s) && Ascending(t) && s[|s| - 1] in t && t[|t| - 1] in s
    ensures s[|s| - 1] == t[|t| - 1]
  {
    hide Cmp, Ascending;
    LastIsLargest(t, s[|s| - 1]);
    LastIsLargest(s, t[|t| - 1]);
    CmpTotal(s[|s| - 1].signPub, t[|t| - 1].signPub);
  }

  lemma {:induction false} AscendingInit(s: seq<DeviceEntry>)
    requires s != [] && Ascending(s)
    ensures Ascending(s[..|s| - 1])
  {
    hide Cmp;
  }

  /** Any ascending arrangement of the same devices is the same sequence, so the
      platform's sort cannot make a difference. */
  lemma {:induction false} AscendingUnique(s: seq<DeviceEntry>, t: seq<DeviceEntry>)
    requires Ascending(s) && Ascending(t) && |s| == |t| && forall e :: e in s <==> e in t
    ensures s == t
    decreases |s|
  {
    hide Ascending;
    if s != [] {
      LastAgrees(s, t);
      var rs, rt := s[..|s| - 1], t[..|t| - 1];
      AscendingInit(s);
      AscendingInit(t);
      SameWithoutLast(s, t, rs, rt);
      AscendingUnique(rs, rt);
      assert s == rs + [s[|s| - 1]] && t == rt + [t[|t| - 1]];
    }
  }

  lemma {:induction false} SameWithoutLast(s: seq<DeviceEntry>, t: seq<DeviceEntry>, rs: seq<DeviceEntry>, rt: seq<DeviceEntry>)
    requires s != [] && t != [] && Ascending(s) && Ascending(t) && s[|s| - 1] == t[|t| - 1]
    requires rs == s[..|s| - 1] && rt == t[..|t| - 1]
    requires forall e :: e in s <==> e in t
    ensures forall e :: e in rs <==> e in rt
  {
    hide Ascending;
    forall e ensures e in rs <==> e in rt {
      InitOf(s, rs, e);
      InitOf(t, rt, e);
    }
  }

  lemma {:induction false} InitOf(s: seq<DeviceEntry>, rest: seq<DeviceEntry>, e: DeviceEntry)
    requires s != [] && Ascending(s) && rest == s[..|s| - 1]
    ensures e in rest <==> e in s && e != s[|s| - 1]
  {
    hide Cmp;
    var last := s[|s| - 1];
    assert s == rest + [last];
    if e in rest {
      var i :| 0 <= i < |rest| && rest[i] == e;
      assert Cmp(s[i].signPub, last.signPub) < 0;
      CmpTotal(last.signPub, last.signPub);
    }
  }

  // ---------------------------------------------------------------------------
  // The message

  function Ascii(s: string): Bytes { seq(|s|, i requires 0 <= i < |s| => s[i] as int % 256) }

  const CTX := Ascii("SCYTALE-DEVLIST-v1")
  const CTX_CAPABILITIES := Ascii("SCYTALE-DEVLIST-v3")

  /** The receive capability the master vouches for; absent counts as 0. */
  function Effective(d: DeviceEntry): int { if d.protocolVersion.Some? then d.protocolVersion.value else 0 }

  function EntryParts(d: DeviceEntry, caps: bool): seq<Bytes> {
    [d.signPub, d.dhPub]
      + (if d.signedPreKey.Some? then [d.signedPreKey.value.pub] else [])
      + (if caps && Effective(d) >= 0 then [EpochBytes(Effective(d))] else [])
  }

  function DeviceParts(ds: seq<DeviceEntry>, caps: bool): seq<Bytes> {
    if ds == [] then [] else DeviceParts(ds[..|ds| - 1], caps) + EntryParts(ds[|ds| - 1], caps)
  }

  function Header(masterPub: Bytes, epoch: nat, version: nat, caps: bool): seq<Bytes> {
    [if caps then CTX_CAPABILITIES else CTX, masterPub, EpochBytes(epoch), EpochBytes(version)]
  }

  /** `listMsg` */
  function ListMsg(masterPub: Bytes, epoch: nat, version: nat, devices: seq<DeviceEntry>): Bytes {
    var caps := CarriesCapabilities(devices);
    Concat(Header(masterPub, epoch, version, caps) + DeviceParts(Sort(devices), caps))
  }

  lemma {:induction false} DevicePartsStep(ds: seq<DeviceEntry>, i: nat, caps: bool)
    requires i < |ds|
    ensures DeviceParts(ds[..i + 1], caps) == DeviceParts(ds[..i], caps) + EntryParts(ds[i], caps)
  {
    hide EntryParts;
    assert ds[..i + 1][..i] == ds[..i];
  }

  lemma {:induction false} CapabilityOf(ds: seq<DeviceEntry>, d: DeviceEntry)
    requires ValidEntries(ds) && d in ds
    ensures Effective(d) >= 0
  {
    var i :| 0 <= i < |ds| && ds[i] == d;
    assert ValidEntry(ds[i]);
  }

  method BuildListMsg(masterPub: Bytes, epoch: nat, version: nat, devices: seq<DeviceEntry>) returns (msg: array<Byte>)
    requires ValidEntries(devices)
    ensures fresh(msg) && msg[..] == ListMsg(masterPub, epoch, version, devices)
  {
    hide CarriesCapabilities, Sort, Concat, EpochBytes, Header, ValidEntries, DeviceParts;
    var sorted := Sort(devices);
    SortPermutes(devices);
    var caps := CarriesCapabilities(devices);
    var header := Header(masterPub, epoch, version, caps);
    var parts := header;
    NoParts(caps);
    for i := 0 to |sorted|
      invariant parts == header + DeviceParts(sorted[..i], caps)
    {
      DevicePartsStep(sorted, i, caps);
      var d := sorted[i];
      CapabilityOf(devices, d);
      var more := [d.signPub, d.dhPub];
      if d.signedPreKey.Some? { more := more + [d.signedPreKey.value.pub]; }
      if caps { more := more + [EpochBytes(if d.protocolVersion.Some? then d.protocolVersion.value else 0)]; }
      parts := parts + more;
    }
    assert sorted[..|sorted|] == sorted;
    msg := ConcatBytes(parts);
  }

  lemma {:induction false} NoParts(caps: bool)
    ensures DeviceParts([], caps) == []
  {}

  /** The signed message does not depend on the order of the devices. */
  lemma {:induction false} OrderIndependent(masterPub: Bytes, epoch: nat, version: nat, ds: seq<DeviceEntry>, es: seq<DeviceEntry>)
    requires ValidEntries(ds) && ValidEntries(es) && multiset(ds) == multiset(es)
    ensures ListMsg(masterPub, epoch, version, ds) == ListMsg(masterPub, epoch, version, es)
  {
    hide Concat, Header, DeviceParts, Sort, Ascending;
    forall d ensures d in ds <==> d in es { assert d in multiset(ds) <==> d in multiset(es); }
    SortPermutes(ds);
    SortPermutes(es);
    SortAscending(ds);
    SortAscending(es);
    AscendingUnique(Sort(ds), Sort(es));
    SameCapabilities(ds, es);
  }

  lemma {:induction false} SameCapabilities(ds: seq<DeviceEntry>, es: seq<DeviceEntry>)
    requires forall d :: d in ds <==> d in es
    ensures CarriesCapabilities(ds) == CarriesCapabilities(es)
  {
    if CarriesCapabilities(ds) {
      var i :| 0 <= i < |ds| && ds[i].protocolVersion.Some?;
      assert ds[i] in es;
    }
    if CarriesCapabilities(es) {
      var i :| 0 <= i < |es| && es[i].protocolVersion.Some?;
      assert es[i] in ds;
    }
  }

  // ---------------------------------------------------------------------------
  // What the signature binds

  /** The part of a device entry that the signed message names. */
  datatype Bound = Bound(signPub: Bytes, dhPub: Bytes, preKey: Option<Bytes>, protocolVersion: int)

  function BoundOf(d: DeviceEntry): Bound {
    Bound(d.signPub, d.dhPub, if d.signedPreKey.Some? then Some(d.signedPreKey.value.pub) else None, Effective(d))
  }

  function Bounds(ds: seq<DeviceEntry>): set<Bound> { set d | d in ds :: BoundOf(d) }

  /** All entries carry a signed prekey, or none does. */
  ghost predicate Keyed(ds: seq<DeviceEntry>, keyed: bool) {
    forall i :: 0 <= i < |ds| ==> ValidEntry(ds[i]) && ds[i].signedPreKey.Some? == keyed
  }

  /** Where both sequences have an entry, both or neither carries a signed prekey. */
  ghost predicate SamePattern(ds: seq<DeviceEntry>, es: seq<DeviceEntry>) {
    forall i :: 0 <= i < |ds| && i < |es| ==> ds[i].signedPreKey.Some? == es[i].signedPreKey.Some?
  }

  ghost predicate AllValid(ds: seq<DeviceEntry>) { forall i :: 0 <= i < |ds| ==> ValidEntry(ds[i]) }

  function Body(ds: seq<DeviceEntry>, caps: bool): Bytes { Concat(DeviceParts(ds, caps)) }

  function Block(d: DeviceEntry, caps: bool): Bytes { Concat(EntryParts(d, caps)) }

  lemma {:induction false} BodyStep(rest: seq<DeviceEntry>, d: DeviceEntry, caps: bool)
    ensures Body(rest + [d], caps) == Body(rest, caps) + Block(d, caps)
  {
    hide EntryParts;
    assert (rest + [d])[..|rest|] == rest;
    ConcatSplit(DeviceParts(rest, caps), EntryParts(d, caps));
  }

  lemma {:induction false} ConcatTwo(a: Bytes, b: Bytes, tail: seq<Bytes>)
    ensures Concat([a, b] + tail) == a + b + Concat(tail)
  {
    ConcatSplit([a, b], tail);
    ConcatAdd([a], b);
    ConcatOne(a);
    assert [a, b] == [a] + [b];
  }

  lemma {:induction false} ConcatOne(a: Bytes)
    ensures Concat([a]) == a && Concat([]) == []
  {
    assert [a][..0] == [];
  }

  function KeyPart(d: DeviceEntry): Bytes { if d.signedPreKey.Some? then d.signedPreKey.value.pub else [] }

  function CapPart(d: DeviceEntry, caps: bool): Bytes
    requires ValidEntry(d)
  {
    if caps then EpochBytes(Effective(d)) else []
  }

  /** Every field of a block has a fixed width, so the block determines them. */
  lemma {:induction false} BlockLayout(d: DeviceEntry, caps: bool)
    requires ValidEntry(d)
    ensures Block(d, caps) == d.signPub + d.dhPub + KeyPart(d) + CapPart(d, caps)
    ensures |Block(d, caps)| == 64 + (if d.signedPreKey.Some? then 32 else 0) + (if caps then 8 else 0)
  {
    hide Concat, BigEndian;
    var key := if d.signedPreKey.Some? then [d.signedPreKey.value.pub] else [];
    var cap := if caps then [EpochBytes(Effective(d))] else [];
    BigEndianLength(Effective(d), 8);
    assert EntryParts(d, caps) == [d.signPub, d.dhPub] + (key + cap);
    ConcatTwo(d.signPub, d.dhPub, key + cap);
    ConcatSplit(key, cap);
    ConcatOne(EpochBytes(Effective(d)));
    if d.signedPreKey.Some? { ConcatOne(d.signedPreKey.value.pub); }
  }

  lemma {:induction false} BlockInjective(d: DeviceEntry, e: DeviceEntry, caps: bool)
    requires ValidEntry(d) && ValidEntry(e) && d.signedPreKey.Some? == e.signedPreKey.Some?
    requires Block(d, caps) == Block(e, caps)
    requires !caps ==> Effective(d) == Effective(e)
    ensures BoundOf(d) == BoundOf(e)
  {
    hide Block, BigEndian;
    BlockLayout(d, caps);
    BlockLayout(e, caps);
    FieldsDetermined(d.signPub, d.dhPub, KeyPart(d), CapPart(d, caps), e.signPub, e.dhPub, KeyPart(e), CapPart(e, caps));
    if caps { EpochBytesInjective(Effective(d), Effective(e)); }
  }

  lemma {:induction false} FieldsDetermined(a: Bytes, b: Bytes, c: Bytes, x: Bytes, p: Bytes, q: Bytes, r: Bytes, y: Bytes)
    requires |a| == |p| && |b| == |q| && |c| == |r| && a + b + c + x == p + q + r + y
    ensures a == p && b == q && c == r && x == y
  {
    FirstBlock(a + b + c, x, p + q + r, y);
    FirstBlock(a + b, c, p + q, r);
    FirstBlock(a, b, p, q);
  }

  ghost predicate SameBounds(ds: seq<DeviceEntry>, es: seq<DeviceEntry>) {
    |ds| == |es| && forall i :: 0 <= i < |ds| ==> BoundOf(ds[i]) == BoundOf(es[i])
  }

  lemma {:induction false} FirstBlock(b: Bytes, x: Bytes, c: Bytes, y: Bytes)
    requires b + x == c + y && |b| == |c|
    ensures b == c && x == y
  {
    assert b == (b + x)[..|b|] == (c + y)[..|c|] == c;
    assert x == (b + x)[|b|..] == (c + y)[|c|..] == y;
  }

  /** Read from the front, blocks of the same shape tell the bodies apart. */
  lemma {:induction false} BodyInjective(ds: seq<DeviceEntry>, es: seq<DeviceEntry>, caps: bool)
    requires AllValid(ds) && AllValid(es) && SamePattern(ds, es) && Body(ds, caps) == Body(es, caps)
    requires !caps ==> forall d :: d in ds + es ==> Effective(d) == 0
    ensures SameBounds(ds, es)
    decreases |ds|
  {
    hide Body, Block, Effective, BoundOf, ValidEntry;
    NoBody(caps);
    if ds != [] { FirstBodyStep(ds, caps); }
    if es != [] { FirstBodyStep(es, caps); }
    if ds != [] && es != [] {
      BlockLayout(ds[0], caps);
      BlockLayout(es[0], caps);
      FirstBlock(Block(ds[0], caps), Body(ds[1..], caps), Block(es[0], caps), Body(es[1..], caps));
      TailsMatch(ds, es);
      BodyInjective(ds[1..], es[1..], caps);
      assert ds[0] in ds + es && es[0] in ds + es;
      BlockInjective(ds[0], es[0], caps);
      FirstBounds(ds, es);
    } else {
      if ds != [] { BlockLayout(ds[0], caps); }
      if es != [] { BlockLayout(es[0], caps); }
    }
  }

  lemma {:induction false} TailsMatch(ds: seq<DeviceEntry>, es: seq<DeviceEntry>)
    requires ds != [] && es != [] && AllValid(ds) && AllValid(es) && SamePattern(ds, es)
    ensures AllValid(ds[1..]) && AllValid(es[1..]) && SamePattern(ds[1..], es[1..])
    ensures forall d :: d in ds[1..] + es[1..] ==> d in ds + es
  {
    hide ValidEntry;
  }

  lemma {:induction false} FirstBounds(ds: seq<DeviceEntry>, es: seq<DeviceEntry>)
    requires ds != [] && es != [] && BoundOf(ds[0]) == BoundOf(es[0]) && SameBounds(ds[1..], es[1..])
    ensures SameBounds(ds, es)
  {
    hide BoundOf;
    forall i | 0 <= i < |ds| ensures BoundOf(ds[i]) == BoundOf(es[i]) {
      if i > 0 { assert ds[i] == ds[1..][i - 1] && es[i] == es[1..][i - 1]; }
    }
  }

  lemma {:induction false} NoBody(caps: bool)
    ensures Body([], caps) == []
  {}

  lemma {:induction false} FirstBodyStep(ds: seq<DeviceEntry>, caps: bool)
    requires ds != []
    ensures Body(ds, caps) == Block(ds[0], caps) + Body(ds[1..], caps)
    decreases |ds|
  {
    hide Body, Block;
    var rest, last := ds[..|ds| - 1], ds[|ds| - 1];
    assert ds == rest + [last];
    BodyStep(rest, last, caps);
    if rest == [] {
      NoBody(caps);
      assert ds[1..] == [];
    } else {
      FirstBodyStep(rest, caps);
      assert ds[1..] == rest[1..] + [last];
      BodyStep(rest[1..], last, caps);
    }
  }

  lemma {:induction false} HeaderLayout(masterPub: Bytes, epoch: nat, version: nat, caps: bool)
    ensures Concat(Header(masterPub, epoch, version, caps))
      == (if caps then CTX_CAPABILITIES else CTX) + masterPub + (EpochBytes(epoch) + EpochBytes(version))
    ensures |EpochBytes(epoch)| == 8 && |EpochBytes(version)| == 8
    ensures |CTX| == |CTX_CAPABILITIES| == 18 && CTX[17] != CTX_CAPABILITIES[17]
  {
    hide Concat, BigEndian;
    var ctx := if caps then CTX_CAPABILITIES else CTX;
    BigEndianLength(epoch, 8);
    BigEndianLength(version, 8);
    assert Header(masterPub, epoch, version, caps) == [ctx, masterPub] + [EpochBytes(epoch), EpochBytes(version)];
    ConcatTwo(ctx, masterPub, [EpochBytes(epoch), EpochBytes(version)]);
    ConcatTwo(EpochBytes(epoch), EpochBytes(version), []);
    ConcatOne([]);
    assert [EpochBytes(epoch), EpochBytes(version)] + [] == [EpochBytes(epoch), EpochBytes(version)];
  }

  /** The message begins with its context, ASCII for SCYTALE-DEVLIST-v1, or v3 if any
      device names its protocol version, and the key it is signed under. */
  lemma {:induction false} MessageBegins(masterPub: Bytes, epoch: nat, version: nat, devices: seq<DeviceEntry>)
    ensures var last := if exists i :: 0 <= i < |devices| && devices[i].protocolVersion.Some? then 51 else 49;
      [83, 67, 89, 84, 65, 76, 69, 45, 68, 69, 86, 76, 73, 83, 84, 45, 118, last] + masterPub <= ListMsg(masterPub, epoch, version, devices)
  {
    hide Concat, BigEndian, DeviceParts, Sort, Header;
    var caps := CarriesCapabilities(devices);
    HeaderLayout(masterPub, epoch, version, caps);
    ConcatSplit(Header(masterPub, epoch, version, caps), DeviceParts(Sort(devices), caps));
    assert CTX == [83, 67, 89, 84, 65, 76, 69, 45, 68, 69, 86, 76, 73, 83, 84, 45, 118, 49];
    assert CTX_CAPABILITIES == [83, 67, 89, 84, 65, 76, 69, 45, 68, 69, 86, 76, 73, 83, 84, 45, 118, 51];
  }

  lemma {:induction false} HeaderInjective(m1: Bytes, e1: nat, v1: nat, c1: bool, b1: Bytes, m2: Bytes, e2: nat, v2: nat, c2: bool, b2: Bytes)
    requires |m1| == 32 && |m2| == 32 && e1 < UINT64 && e2 < UINT64 && v1 < UINT64 && v2 < UINT64
    requires Concat(Header(m1, e1, v1, c1)) + b1 == Concat(Header(m2, e2, v2, c2)) + b2
    ensures m1 == m2 && e1 == e2 && v1 == v2 && c1 == c2 && b1 == b2
  {
    hide Concat, EpochBytes, Header, Ascii;
    HeaderLayout(m1, e1, v1, c1);
    HeaderLayout(m2, e2, v2, c2);
    var x := Concat(Header(m1, e1, v1, c1)) + b1;
    assert x[17] == if c1 then CTX_CAPABILITIES[17] else CTX[17];
    assert x[17] == if c2 then CTX_CAPABILITIES[17] else CTX[17];
    assert m1 == x[18..50] == m2;
    assert EpochBytes(e1) == x[50..58] == EpochBytes(e2);
    assert EpochBytes(v1) == x[58..66] == EpochBytes(v2);
    assert b1 == x[66..] == b2;
    EpochBytesInjective(e1, e2);
    EpochBytesInjective(v1, v2);
  }

  lemma {:induction false} SameBoundsSets(ds: seq<DeviceEntry>, es: seq<DeviceEntry>)
    requires SameBounds(ds, es)
    ensures Bounds(ds) == Bounds(es)
  {
    hide BoundOf;
    forall b ensures b in Bounds(ds) <==> b in Bounds(es) {
      if b in Bounds(ds) {
        var d :| d in ds && BoundOf(d) == b;
        var i :| 0 <= i < |ds| && ds[i] == d;
        assert es[i] in es;
      }
      if b in Bounds(es) {
        var e :| e in es && BoundOf(e) == b;
        var i :| 0 <= i < |es| && es[i] == e;
        assert ds[i] in ds;
      }
    }
  }

  lemma {:induction false} SortValid(ds: seq<DeviceEntry>)
    requires AllValid(ds)
    ensures AllValid(Sort(ds)) && Bounds(Sort(ds)) == Bounds(ds) && |Sort(ds)| == |ds|
  {
    hide Sort, ValidEntry, BoundOf;
    SortPermutes(ds);
    var s := Sort(ds);
    forall i | 0 <= i < |s| ensures ValidEntry(s[i]) { assert s[i] in ds; }
    assert |s| == |multiset(s)| == |ds|;
  }

  lemma {:induction false} NoCapabilitiesMeansZero(ds: seq<DeviceEntry>)
    requires !CarriesCapabilities(ds)
    ensures forall d :: d in ds ==> Effective(d) == 0
  {}

  ghost predicate SameMessage(l: DeviceList, m: DeviceList)
    requires ValidShape(l) && ValidShape(m)
  {
    ListMsg(l.masterPub, l.epoch, l.version, l.devices) == ListMsg(m.masterPub, m.epoch, m.version, m.devices)
  }

  predicate SameHeader(l: DeviceList, m: DeviceList) {
    && l.masterPub == m.masterPub && l.epoch == m.epoch && l.version == m.version
    && CarriesCapabilities(l.devices) == CarriesCapabilities(m.devices)
  }

  /** Every device's keys, prekey and effective protocol version agree. */
  predicate SameContent(l: DeviceList, m: DeviceList) {
    Bounds(l.devices) == Bounds(m.devices) && |l.devices| == |m.devices|
  }

  /** A message always tells the master, the epoch, the version and the capability
      context, and the bytes the devices contribute. */
  lemma {:induction false} HeaderBinds(l: DeviceList, m: DeviceList)
    requires ValidShape(l) && ValidShape(m)
    ensures SameMessage(l, m) <==>
      SameHeader(l, m) && Body(Sort(l.devices), CarriesCapabilities(l.devices)) == Body(Sort(m.devices), CarriesCapabilities(m.devices))
  {
    hide Concat, Header, DeviceParts, Sort, CarriesCapabilities, ValidEntries;
    var c1, c2 := CarriesCapabilities(l.devices), CarriesCapabilities(m.devices);
    var s, t := Sort(l.devices), Sort(m.devices);
    ConcatSplit(Header(l.masterPub, l.epoch, l.version, c1), DeviceParts(s, c1));
    ConcatSplit(Header(m.masterPub, m.epoch, m.version, c2), DeviceParts(t, c2));
    if SameMessage(l, m) {
      HeaderInjective(l.masterPub, l.epoch, l.version, c1, Body(s, c1), m.masterPub, m.epoch, m.version, c2, Body(t, c2));
    }
  }

  lemma {:induction false} PartsOfBound(d: DeviceEntry, e: DeviceEntry, caps: bool)
    requires BoundOf(d) == BoundOf(e)
    ensures EntryParts(d, caps) == EntryParts(e, caps)
  {}

  lemma {:induction false} PartsOfBounds(s: seq<DeviceEntry>, t: seq<DeviceEntry>, caps: bool)
    requires SameBounds(s, t)
    ensures DeviceParts(s, caps) == DeviceParts(t, caps)
  {
    hide BoundOf, EntryParts;
    if s != [] {
      PartsOfBounds(s[..|s| - 1], t[..|t| - 1], caps);
      PartsOfBound(s[|s| - 1], t[|t| - 1], caps);
    }
  }

  lemma {:induction false} InitBounds(s: seq<DeviceEntry>, rest: seq<DeviceEntry>, b: Bound)
    requires s != [] && Ascending(s) && rest == s[..|s| - 1]
    ensures b in Bounds(rest) <==> b in Bounds(s) && b != BoundOf(s[|s| - 1])
  {
    hide Ascending, Effective, Cmp;
    var last := s[|s| - 1];
    if b in Bounds(rest) {
      var d :| d in rest && BoundOf(d) == b;
      InitOf(s, rest, d);
      if d.signPub == last.signPub { SignPubTells(s, d, last); }
    }
    if b in Bounds(s) && b != BoundOf(last) {
      var d :| d in s && BoundOf(d) == b;
      InitOf(s, rest, d);
    }
  }

  /** In an ascending list a signing key belongs to one entry. */
  lemma {:induction false} SignPubTells(s: seq<DeviceEntry>, d: DeviceEntry, e: DeviceEntry)
    requires Ascending(s) && d in s && e in s && d.signPub == e.signPub
    ensures d == e
  {
    hide Cmp;
    CmpTotal(d.signPub, e.signPub);
    var i :| 0 <= i < |s| && s[i] == d;
    var j :| 0 <= j < |s| && s[j] == e;
  }

  lemma {:induction false} LargestAgrees(s: seq<DeviceEntry>, t: seq<DeviceEntry>)
    requires s != [] && t != [] && Ascending(s) && Ascending(t) && Bounds(s) == Bounds(t)
    ensures BoundOf(s[|s| - 1]) == BoundOf(t[|t| - 1])
  {
    hide Cmp, Effective;
    var x, y := s[|s| - 1], t[|t| - 1];
    assert BoundOf(x) in Bounds(t) && BoundOf(y) in Bounds(s);
    var d :| d in t && BoundOf(d) == BoundOf(x);
    var e :| e in s && BoundOf(e) == BoundOf(y);
    CmpTotal(x.signPub, y.signPub);
    assert Cmp(d.signPub, y.signPub) < 0 || d == y;
    assert Cmp(e.signPub, x.signPub) < 0 || e == x;
  }

  lemma {:induction false} AscendingBoundsUnique(s: seq<DeviceEntry>, t: seq<DeviceEntry>)
    requires Ascending(s) && Ascending(t) && |s| == |t| && Bounds(s) == Bounds(t)
    ensures SameBounds(s, t)
    decreases |s|
  {
    hide Cmp, BoundOf, Bounds;
    if s != [] {
      var rs, rt := s[..|s| - 1], t[..|t| - 1];
      LargestAgrees(s, t);
      forall b ensures b in Bounds(rs) <==> b in Bounds(rt) {
        InitBounds(s, rs, b);
        InitBounds(t, rt, b);
      }
      assert Bounds(rs) == Bounds(rt);
      AscendingBoundsUnique(rs, rt);
    }
  }

  /** Two lists with equal messages have the same content if and only if their sorted
      entries agree, position by position, on the presence of a prekey. */
  lemma {:induction false} ContentBoundExactly(l: DeviceList, m: DeviceList)
    requires ValidShape(l) && ValidShape(m) && SameMessage(l, m)
    ensures SameHeader(l, m)
    ensures SameContent(l, m) <==> SamePattern(Sort(l.devices), Sort(m.devices))
  {
    hide SameMessage, Body, Sort, Bounds, BoundOf, CarriesCapabilities, Ascending, ValidEntry, Effective;
    HeaderBinds(l, m);
    var s, t := Sort(l.devices), Sort(m.devices);
    SortValid(l.devices);
    SortValid(m.devices);
    if SamePattern(s, t) {
      ZeroOf(l.devices, m.devices);
      BodyInjective(s, t, CarriesCapabilities(l.devices));
      SameBoundsSets(s, t);
    }
    if SameContent(l, m) {
      SortAscending(l.devices);
      SortAscending(m.devices);
      AscendingBoundsUnique(s, t);
      PatternOfBounds(s, t);
    }
  }

  lemma {:induction false} ZeroOf(ds: seq<DeviceEntry>, es: seq<DeviceEntry>)
    ensures !CarriesCapabilities(ds) && !CarriesCapabilities(es) ==> forall d :: d in Sort(ds) + Sort(es) ==> Effective(d) == 0
  {
    hide Sort, CarriesCapabilities, Effective;
    SortPermutes(ds);
    SortPermutes(es);
    if !CarriesCapabilities(ds) && !CarriesCapabilities(es) {
      NoCapabilitiesMeansZero(ds);
      NoCapabilitiesMeansZero(es);
    }
  }

  lemma {:induction false} PatternOfBounds(s: seq<DeviceEntry>, t: seq<DeviceEntry>)
    requires SameBounds(s, t)
    ensures SamePattern(s, t)
  {
    forall i | 0 <= i < |s| && i < |t| ensures s[i].signedPreKey.Some? == t[i].signedPreKey.Some? {
      assert BoundOf(s[i]) == BoundOf(t[i]);
    }
  }

  /** Header and content make the message. */
  lemma {:induction false} ContentMakesMessage(l: DeviceList, m: DeviceList)
    requires ValidShape(l) && ValidShape(m) && SameHeader(l, m) && SameContent(l, m)
    ensures SameMessage(l, m)
  {
    hide Concat, Header, DeviceParts, Sort, Bounds, CarriesCapabilities, Ascending, ValidEntry;
    var s, t := Sort(l.devices), Sort(m.devices);
    SortValid(l.devices);
    SortValid(m.devices);
    SortAscending(l.devices);
    SortAscending(m.devices);
    AscendingBoundsUnique(s, t);
    PartsOfBounds(s, t, CarriesCapabilities(l.devices));
  }

  /** Where the presence of prekeys agrees, and in particular when both lists carry one
      in every entry or both in none, the messages are equal exactly when everything
      they name agrees. */
  lemma {:induction false} MessageBindsExactly(l: DeviceList, m: DeviceList)
    requires ValidShape(l) && ValidShape(m)
    requires SamePattern(Sort(l.devices), Sort(m.devices))
      || exists keyed :: Keyed(l.devices, keyed) && Keyed(m.devices, keyed)
    ensures SameMessage(l, m) <==> SameHeader(l, m) && SameContent(l, m)
  {
    hide SameMessage, SameHeader, SameContent, Sort, Keyed, ValidEntry;
    if keyed :| Keyed(l.devices, keyed) && Keyed(m.devices, keyed) {
      UniformPattern(l.devices, m.devices, keyed);
    }
    if SameMessage(l, m) { ContentBoundExactly(l, m); }
    if SameHeader(l, m) && SameContent(l, m) { ContentMakesMessage(l, m); }
  }

  lemma {:induction false} UniformPattern(ds: seq<DeviceEntry>, es: seq<DeviceEntry>, keyed: bool)
    requires Keyed(ds, keyed) && Keyed(es, keyed)
    ensures SamePattern(Sort(ds), Sort(es))
  {
    hide Sort, ValidEntry;
    SortPermutes(ds);
    SortPermutes(es);
    var s, t := Sort(ds), Sort(es);
    forall i | 0 <= i < |s| && i < |t| ensures s[i].signedPreKey.Some? == t[i].signedPreKey.Some? {
      assert s[i] in ds && t[i] in es;
    }
  }

  // ---------------------------------------------------------------------------
  // Why the prekeys matter

  function Fill(b: Byte, n: nat): Bytes { seq(n, _ => b) }

  function Plain(sign: Byte, dh: Byte, key: Option<Byte>): DeviceEntry {
    DeviceEntry(Fill(sign, 32), Fill(dh, 32), Fill(0, 64),
      if key.Some? then Some(SignedPreKey(0, Fill(key.value, 32), Fill(0, 64))) else None, None)
  }

  lemma {:induction false} FillOrder(a: Byte, b: Byte)
    requires a < b
    ensures Cmp(Fill(a, 32), Fill(b, 32)) < 0
  {
    assert Fill(a, 32)[0] == a && Fill(b, 32)[0] == b;
  }

  lemma {:induction false} SortedAlready(ds: seq<DeviceEntry>)
    requires DistinctDevices(ds) && Ascending(ds)
    ensures Sort(ds) == ds
  {
    hide Cmp;
    SortPermutes(ds);
    SortAscending(ds);
    assert |Sort(ds)| == |multiset(Sort(ds))| == |ds|;
    AscendingUnique(Sort(ds), ds);
  }

  const TWO_WITH_KEYS := [Plain(1, 2, Some(3)), Plain(4, 5, Some(6))]
  const THREE_WITHOUT := [Plain(1, 2, None), Plain(3, 4, None), Plain(5, 6, None)]

  lemma {:induction false} TwoBody()
    ensures ValidEntries(TWO_WITH_KEYS) && !CarriesCapabilities(TWO_WITH_KEYS) && Sort(TWO_WITH_KEYS) == TWO_WITH_KEYS
    ensures Body(TWO_WITH_KEYS, false) ==
      Fill(1, 32) + Fill(2, 32) + Fill(3, 32) + (Fill(4, 32) + Fill(5, 32) + Fill(6, 32))
  {
    hide Fill, Cmp, Sort, Body;
    FillSizes();
    FillOrder(1, 4);
    FillsDiffer(1, 4);
    FillsDiffer(2, 5);
    SortedAlready(TWO_WITH_KEYS);
    var ds := TWO_WITH_KEYS;
    assert ds == [] + [ds[0]] + [ds[1]];
    NoBody(false);
    BodyStep([], ds[0], false);
    BodyStep([] + [ds[0]], ds[1], false);
    BlockLayout(ds[0], false);
    BlockLayout(ds[1], false);
  }

  lemma {:induction false} ThreeBody()
    ensures ValidEntries(THREE_WITHOUT) && !CarriesCapabilities(THREE_WITHOUT) && Sort(THREE_WITHOUT) == THREE_WITHOUT
    ensures Body(THREE_WITHOUT, false) ==
      Fill(1, 32) + Fill(2, 32) + (Fill(3, 32) + Fill(4, 32)) + (Fill(5, 32) + Fill(6, 32))
  {
    hide Fill, Cmp, Sort, Body;
    FillSizes();
    FillOrder(1, 3);
    FillOrder(1, 5);
    FillOrder(3, 5);
    FillsDiffer(1, 3);
    FillsDiffer(1, 5);
    FillsDiffer(3, 5);
    FillsDiffer(2, 4);
    FillsDiffer(2, 6);
    FillsDiffer(4, 6);
    SortedAlready(THREE_WITHOUT);
    var ds := THREE_WITHOUT;
    assert ds == [] + [ds[0]] + [ds[1]] + [ds[2]];
    NoBody(false);
    BodyStep([], ds[0], false);
    BodyStep([] + [ds[0]], ds[1], false);
    BodyStep([] + [ds[0]] + [ds[1]], ds[2], false);
    BlockLayout(ds[0], false);
    BlockLayout(ds[1], false);
    BlockLayout(ds[2], false);
  }

  lemma {:induction false} FillSizes()
    ensures forall b: Byte, n: nat :: |Fill(b, n)| == n
  {}

  lemma {:induction false} FillsDiffer(a: Byte, b: Byte)
    requires a != b
    ensures Fill(a, 32) != Fill(b, 32)
  {
    assert Fill(a, 32)[0] == a && Fill(b, 32)[0] == b;
  }

  /** Where it does not agree the message need not determine the list: two devices that
      both carry a prekey and three devices that carry none can have the same one. */
  lemma {:induction false} MixedListsAmbiguous(masterPub: Bytes, epoch: nat, version: nat)
    ensures ValidEntries(TWO_WITH_KEYS) && ValidEntries(THREE_WITHOUT) && |TWO_WITH_KEYS| != |THREE_WITHOUT|
    ensures ListMsg(masterPub, epoch, version, TWO_WITH_KEYS) == ListMsg(masterPub, epoch, version, THREE_WITHOUT)
    ensures !SamePattern(Sort(TWO_WITH_KEYS), Sort(THREE_WITHOUT))
  {
    TwoBody();
    ThreeBody();
    PatternsDiffer();
    hide Concat, Header, DeviceParts, Sort, CarriesCapabilities, Fill, ValidEntries;
    ConcatSplit(Header(masterPub, epoch, version, false), DeviceParts(TWO_WITH_KEYS, false));
    ConcatSplit(Header(masterPub, epoch, version, false), DeviceParts(THREE_WITHOUT, false));
    Regroup(Fill(1, 32), Fill(2, 32), Fill(3, 32), Fill(4, 32), Fill(5, 32), Fill(6, 32));
  }

  lemma {:induction false} PatternsDiffer()
    ensures !SamePattern(TWO_WITH_KEYS, THREE_WITHOUT)
  {
    hide Fill;
    assert TWO_WITH_KEYS[0].signedPreKey.Some? && THREE_WITHOUT[0].signedPreKey.None?;
  }

  lemma {:induction false} Regroup(a: Bytes, b: Bytes, c: Bytes, d: Bytes, e: Bytes, f: Bytes)
    ensures a + b + c + (d + e + f) == a + b + (c + d) + (e + f)
  {
    assert a + b + c + (d + e + f) == a + b + c + d + e + f;
    assert a + b + (c + d) + (e + f) == a + b + c + d + e + f;
  }
}
