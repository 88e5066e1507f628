/** Receiving a large attachment chunk by chunk, in any order, with duplicates,
    re-served chunks, storage failures, and a crash after any durable write. */
module ChunkReceive {
  import opened Codec
  import opened Sums

  const RECV_MAX_BYTES := 30 * 1024 * 1024
  const RECV_MAX_CHUNKS := 800
  const RECV_MAX_CHUNK_BYTES := 256 * 1024
  const CHUNK_BYTES := 48 * 1024

  /** What every chunk of a transfer repeats about the whole. */
  datatype Desc = Desc(total: int, size: int, name: string, mime: string, viewOnce: bool)
  datatype Chunk = Chunk(desc: Desc, idx: int, data: Bytes)

  datatype Marker = Marker(desc: Desc, receivedIdx: seq<int>, receivedBytes: nat)

  type Store = map<int, Bytes>

  /** One transfer id. `marker`, `store`, `meta` (the descriptor of a finalised
      attachment), `published` (its message is saved) and `recalled` are durable;
      `dropped` lives in memory. */
  datatype Transfer = Transfer(
    marker: Option<Marker>, store: Store, meta: Option<Desc>, published: bool, recalled: bool, dropped: bool)

  const NO_TRANSFER := Transfer(None, map[], None, false, false, false)

  // ---------------------------------------------------------------------------
  // One incoming chunk

  predicate ValidChunk(c: Chunk) {
    && 1 <= c.desc.total <= RECV_MAX_CHUNKS
    && 0 <= c.idx < c.desc.total
    && 0 <= c.desc.size <= RECV_MAX_BYTES
    && |c.data| <= RECV_MAX_CHUNK_BYTES
    && (if c.desc.size == 0 then c.desc.total == 1 && |c.data| == 0 else c.desc.total <= c.desc.size && |c.data| != 0)
  }

  datatype Full = No | AtChunk | AtMarker

  /** What the rest of the client decides: `refused` for the checks on the contact,
      the transfer id and aliasing; `admitted` for the quota; `full` for a storage
      write that fails; `writes` for how many durable writes happen before a crash. */
  datatype Env = Env(refused: bool, admitted: bool, full: Full, writes: nat)

  function Crash(t: Transfer): Transfer { t.(dropped := false) }

  /** Clear the marker, then wipe the chunks. The wipe is one durable write: its first
      deletes the key that seals the chunks, and nothing of them can be read after that,
      whether or not their records are still there. */
  function Discard(t: Transfer, writes: nat): Transfer {
    if writes == 0 then Crash(t)
    else if writes == 1 then Crash(t.(marker := None))
    else t.(marker := None, store := map[], meta := None, dropped := true)
  }

  /** A recall came first: wipe the chunks, then the marker. */
  function Recalled(t: Transfer, writes: nat): Transfer {
    if writes == 0 then Crash(t)
    else if writes == 1 then Crash(t.(store := map[], meta := None))
    else t.(store := map[], meta := None, marker := None)
  }

  function Complete(t: Transfer, writes: nat): Transfer
    requires t.marker.Some?
  {
    var m := t.marker.value;
    if |m.receivedIdx| < m.desc.total then t
    else if m.receivedBytes != m.desc.size then Discard(t, writes)
    else if writes == 0 then Crash(t)
    else if writes == 1 then Crash(t.(meta := Some(m.desc)))
    else if writes == 2 then Crash(t.(meta := Some(m.desc), published := true))
    else t.(meta := Some(m.desc), published := true, marker := None, dropped := false)
  }

  function Recorded(m: Marker, c: Chunk): Marker {
    m.(receivedIdx := m.receivedIdx + [c.idx], receivedBytes := m.receivedBytes + |c.data|)
  }

  function Accept(t: Transfer, c: Chunk, full: Full, writes: nat): Transfer
    requires t.marker.Some?
  {
    var m := t.marker.value;
    if c.idx in m.receivedIdx then Complete(t, writes)
    else if m.receivedBytes + |c.data| > m.desc.size then t
    else if full == AtChunk then Discard(t, writes)
    else if writes == 0 then Crash(t)
    else
      var u := t.(store := t.store[c.idx := c.data]);
      if full == AtMarker then Discard(u, writes - 1)
      else if writes == 1 then Crash(u)
      else Complete(u.(marker := Some(Recorded(m, c))), writes - 2)
  }

  function Receive(t: Transfer, c: Chunk, env: Env): Transfer {
    if env.refused || t.dropped || !ValidChunk(c) then t
    else if t.recalled then Recalled(t, env.writes)
    else if t.published then t
    else if t.marker.None? then
      if t.meta.Some? then t
      else if !env.admitted then t.(dropped := true)
      else if env.writes == 0 then Crash(t)
      else Accept(t.(marker := Some(Marker(c.desc, [], 0))), c, env.full, env.writes - 1)
    else if t.marker.value.desc != c.desc then t
    else Accept(t, c, env.full, env.writes)
  }

  /** `Sweep` is the orphan sweep finding the transfer stale; `Forget` a reload, or
      the bounded set of dropped ids letting this one go. */
  datatype Event = Arrive(c: Chunk, env: Env) | Recall | Sweep(writes: nat) | Forget

  function Step(t: Transfer, e: Event): Transfer {
    match e
    case Arrive(c, env) => Receive(t, c, env)
    case Recall => t.(recalled := true, marker := None, store := map[], meta := None)
    case Sweep(writes) => if t.published then t.(marker := None) else Discard(t, writes).(dropped := t.dropped)
    case Forget => t.(dropped := false)
  }

  function Run(es: seq<Event>): Transfer {
    if es == [] then NO_TRANSFER else Step(Run(es[..|es| - 1]), es[|es| - 1])
  }

  // ---------------------------------------------------------------------------
  // The receiver in place

  class Receiver {
    var marker: Option<Marker>
    var store: Store
    var meta: Option<Desc>
    var published: bool
    var recalled: bool
    var dropped: bool
    // Durable writes left before the process dies.
    var budget: nat

    function State(): Transfer
      reads this
    {
      Transfer(marker, store, meta, published, recalled, dropped)
    }

    constructor ()
      ensures State() == NO_TRANSFER
    {
      marker, store, meta, published, recalled, dropped, budget := None, map[], None, false, false, false, 0;
    }

    /** True if the next durable write still happens; a crash loses what is in memory. */
    method Survives() returns (alive: bool)
      modifies this`budget, this`dropped
      ensures alive <==> old(budget) > 0
      ensures alive ==> budget == old(budget) - 1 && dropped == old(dropped)
      ensures !alive ==> budget == 0 && !dropped
    {
      alive := budget > 0;
      if alive { budget := budget - 1; } else { dropped := false; }
    }

    method Abandon()
      modifies this
      ensures State() == Discard(old(State()), old(budget))
    {
      var alive := Survives();
      if !alive { return; }
      marker := None;
      alive := Survives();
      if !alive { return; }
      store, meta := map[], None;
      dropped := true;
    }

    method FinishIfComplete()
      requires marker.Some?
      modifies this
      ensures State() == Complete(old(State()), old(budget))
    {
      var m := marker.value;
      if |m.receivedIdx| < m.desc.total { return; }
      if m.receivedBytes != m.desc.size {
        Abandon();
        return;
      }
      var alive := Survives();
      if !alive { return; }
      meta := Some(m.desc);
      alive := Survives();
      if !alive { return; }
      published := true;
      alive := Survives();
      if !alive { return; }
      marker := None;
      dropped := false;
    }

    method ReceiveChunk(c: Chunk, env: Env)
      modifies this
      ensures State() == Receive(old(State()), c, env)
    {
      hide ValidChunk;
      budget := env.writes;
      if env.refused || dropped || !ValidChunk(c) { return; }
      var alive: bool;
      if recalled {
        alive := Survives();
        if !alive { return; }
        store, meta := map[], None;
        alive := Survives();
        if !alive { return; }
        marker := None;
        return;
      }
      if published { return; }
      if marker.None? {
        if meta.Some? { return; }
        if !env.admitted {
          dropped := true;
          return;
        }
        alive := Survives();
        if !alive { return; }
        marker := Some(Marker(c.desc, [], 0));
      } else if marker.value.desc != c.desc {
        return;
      }
      var m := marker.value;
      if c.idx !in m.receivedIdx {
        if m.receivedBytes + |c.data| > m.desc.size { return; }
        if env.full == AtChunk {
          Abandon();
          return;
        }
        alive := Survives();
        if !alive { return; }
        store := store[c.idx := c.data];
        if env.full == AtMarker {
          Abandon();
          return;
        }
        alive := Survives();
        if !alive { return; }
        marker := Some(m.(receivedIdx := m.receivedIdx + [c.idx], receivedBytes := m.receivedBytes + |c.data|));
      }
      FinishIfComplete();
    }
  }

  // ---------------------------------------------------------------------------
  // The attachment as it is read back

  /** Chunks 0..n-1 are stored. */
  predicate Has(store: Store, n: nat) { forall i :: 0 <= i < n ==> i in store }

  function Joined(store: Store, n: nat): Bytes
    requires Has(store, n)
  {
    if n == 0 then [] else Joined(store, n - 1) + store[n - 1]
  }

  function Blob(t: Transfer): Option<Bytes>
    requires t.meta.Some? ==> 0 <= t.meta.value.total
  {
    if t.meta.Some? && Has(t.store, t.meta.value.total) && |Joined(t.store, t.meta.value.total)| == t.meta.value.size
    then Some(Joined(t.store, t.meta.value.total)) else None
  }

  lemma {:induction false} JoinedGrows(store: Store, i: nat, n: nat)
    requires i <= n && Has(store, n)
    ensures |Joined(store, i)| <= |Joined(store, n)|
    decreases n
  {
    if i < n { JoinedGrows(store, i, n - 1); }
  }

  const MAX_SAFE := 0x1F_FFFF_FFFF_FFFF

  /** `getAttachmentBlob` returns null, throws its size-limit error, or returns the data. */
  datatype ReadBack = Absent | OverLimit | Read(blob: Bytes)

  /** The chunks that are there already outgrow the recorded size. */
  ghost predicate Outgrows(store: Store, d: Desc) {
    exists i: nat :: 1 <= i <= d.total && Has(store, i) && |Joined(store, i)| > d.size
  }

  ghost predicate WithinLimit(d: Desc, maxBytes: int) { 0 <= maxBytes <= MAX_SAFE && d.size <= maxBytes }

  /** `getAttachmentBlob`: the chunks in order if all are there and make up the recorded
      size; the error if the limit is invalid or too small, or the chunks outgrow the
      recorded size before one is missing; otherwise nothing. */
  method GetAttachmentBlob(t: Transfer, maxBytes: int) returns (r: ReadBack)
    requires t.meta.Some? ==> 0 <= t.meta.value.total
    ensures r.OverLimit? <==> t.meta.Some? && (!WithinLimit(t.meta.value, maxBytes) || Outgrows(t.store, t.meta.value))
    ensures r.Read? <==> t.meta.Some? && WithinLimit(t.meta.value, maxBytes) && Blob(t).Some?
    ensures r.Read? ==> Blob(t) == Some(r.blob)
  {
    if t.meta.None? { return Absent; }
    var d := t.meta.value;
    if maxBytes < 0 || maxBytes > MAX_SAFE || d.size > maxBytes { return OverLimit; }
    var parts: Bytes := [];
    for i := 0 to d.total
      invariant Has(t.store, i) && parts == Joined(t.store, i)
      invariant forall j: nat :: 1 <= j <= i ==> |Joined(t.store, j)| <= d.size
    {
      if i !in t.store {
        assert !Has(t.store, d.total);
        return Absent;
      }
      parts := parts + t.store[i];
      if |parts| > d.size || |parts| > maxBytes {
        assert Has(t.store, i + 1);
        if Has(t.store, d.total) { JoinedGrows(t.store, i + 1, d.total); }
        return OverLimit;
      }
    }
    return if |parts| == d.size then Read(parts) else Absent;
  }

  /** The lengths of the stored chunks named in `s`. */
  function LengthsOf(store: Store, s: set<int>): map<int, nat> { map i | i in store && i in s :: |store[i]| }

  /** {0, ..., n-1} */
  function UpTo(n: nat): (s: set<int>)
    ensures forall i :: i in s <==> 0 <= i < n
    ensures |s| == n
  {
    if n == 0 then {} else UpTo(n - 1) + {n - 1}
  }

  lemma {:induction false} JoinedLength(store: Store, n: nat)
    requires Has(store, n)
    ensures |Joined(store, n)| == Sum(LengthsOf(store, UpTo(n)))
  {
    hide LengthsOf, Sum;
    if n == 0 {
      NoLengths(store);
    } else {
      JoinedLength(store, n - 1);
      LengthsUpTo(store, n);
    }
  }

  lemma {:induction false} LengthsUpTo(store: Store, n: nat)
    requires n > 0 && n - 1 in store
    ensures Sum(LengthsOf(store, UpTo(n))) == Sum(LengthsOf(store, UpTo(n - 1))) + |store[n - 1]|
  {
    hide LengthsOf, Sum;
    OneMoreLength(store, UpTo(n - 1), n - 1);
    SumPut(LengthsOf(store, UpTo(n - 1)), n - 1, |store[n - 1]|);
  }

  lemma {:induction false} NoLengths(store: Store)
    ensures Sum(LengthsOf(store, UpTo(0))) == 0
  {
    assert LengthsOf(store, UpTo(0)) == map[];
  }

  lemma {:induction false} OneMoreLength(store: Store, s: set<int>, i: int)
    requires i in store && i !in s
    ensures LengthsOf(store, s + {i}) == LengthsOf(store, s)[i := |store[i]|]
    ensures i !in LengthsOf(store, s)
  {}

  // ---------------------------------------------------------------------------
  // The marker

  ghost predicate Distinct(s: seq<int>) { forall i, j :: 0 <= i < j < |s| ==> s[i] != s[j] }

  function Elements(s: seq<int>): set<int> { set i | i in s }

  /** Indices are distinct, below the total and stored; the byte count is that of
      what is stored under them, and within the claimed size. */
  ghost predicate MarkerOk(m: Marker, store: Store) {
    && 1 <= m.desc.total && 0 <= m.desc.size
    && Distinct(m.receivedIdx)
    && (forall i :: i in m.receivedIdx ==> 0 <= i < m.desc.total && i in store)
    && m.receivedBytes == Sum(LengthsOf(store, Elements(m.receivedIdx)))
    && m.receivedBytes <= m.desc.size
  }

  /** All chunks are there and make up exactly the claimed size. */
  ghost predicate Whole(d: Desc, store: Store) {
    1 <= d.total && Has(store, d.total) && |Joined(store, d.total)| == d.size
  }

  ghost predicate TransferOk(t: Transfer) {
    && (!t.recalled && t.marker.Some? ==> MarkerOk(t.marker.value, t.store))
    && (!t.recalled && t.published ==> t.meta.Some?)
    && (t.meta.Some? ==> Whole(t.meta.value, t.store))
    && (!t.recalled && t.meta.Some? && t.marker.Some? ==>
         |t.marker.value.receivedIdx| >= t.marker.value.desc.total)
  }

  /** As many distinct indices below `n` as there are means all of them. */
  lemma {:induction false} Pigeonhole(s: seq<int>, n: nat)
    requires Distinct(s) && forall i :: i in s ==> 0 <= i < n
    ensures |s| <= n
    ensures |s| == n ==> Elements(s) == UpTo(n)
  {
    DistinctSize(s);
    assert Elements(s) <= UpTo(n);
    SubsetSize(Elements(s), UpTo(n));
  }

  lemma {:induction false} DistinctSize(s: seq<int>)
    requires Distinct(s)
    ensures |Elements(s)| == |s|
  {
    if s == [] {
      assert Elements(s) == {};
    } else {
      var last := s[|s| - 1];
      DistinctSize(s[..|s| - 1]);
      assert Elements(s) == Elements(s[..|s| - 1]) + {last};
    }
  }

  lemma {:induction false} SubsetSize(a: set<int>, b: set<int>)
    requires a <= b
    ensures |a| <= |b| && (|a| == |b| ==> a == b)
  {
    assert b == a + (b - a);
    assert |b| == |a| + |b - a|;
  }

  /** A full marker with the right byte count makes a whole attachment. */
  lemma {:induction false} FullIsWhole(m: Marker, store: Store)
    requires MarkerOk(m, store) && |m.receivedIdx| >= m.desc.total && m.receivedBytes == m.desc.size
    ensures Whole(m.desc, store)
  {
    Pigeonhole(m.receivedIdx, m.desc.total);
    forall i | 0 <= i < m.desc.total ensures i in store { assert i in UpTo(m.desc.total); }
    JoinedLength(store, m.desc.total);
  }

  /** Writing a chunk under an index outside `s` does not touch the lengths in `s`. */
  lemma {:induction false} LengthsWritten(store: Store, s: set<int>, idx: int, data: Bytes)
    requires idx !in s
    ensures LengthsOf(store[idx := data], s) == LengthsOf(store, s)
    ensures Sum(LengthsOf(store[idx := data], s + {idx})) == Sum(LengthsOf(store, s)) + |data|
  {
    var next := store[idx := data];
    assert LengthsOf(next, s) == LengthsOf(store, s);
    assert LengthsOf(next, s + {idx}) == LengthsOf(store, s)[idx := |data|];
    SumPut(LengthsOf(store, s), idx, |data|);
  }

  lemma {:induction false} ElementsAdd(s: seq<int>, idx: int)
    ensures Elements(s + [idx]) == Elements(s) + {idx}
    ensures idx in Elements(s) <==> idx in s
    ensures forall i :: i in s + [idx] <==> i in s || i == idx
    ensures Distinct(s) && idx !in s ==> Distinct(s + [idx])
  {}

  lemma {:induction false} RecordedOk(m: Marker, store: Store, c: Chunk)
    requires MarkerOk(m, store) && 0 <= c.idx < m.desc.total && c.idx !in m.receivedIdx
    requires m.receivedBytes + |c.data| <= m.desc.size
    ensures MarkerOk(m, store[c.idx := c.data]) && MarkerOk(Recorded(m, c), store[c.idx := c.data])
  {
    hide Elements, LengthsOf, Distinct;
    ElementsAdd(m.receivedIdx, c.idx);
    LengthsWritten(store, Elements(m.receivedIdx), c.idx, c.data);
  }

  lemma {:induction false} FreshOk(c: Chunk, store: Store)
    requires ValidChunk(c)
    ensures MarkerOk(Marker(c.desc, [], 0), store)
  {
    assert LengthsOf(store, Elements([])) == map[];
  }

  lemma {:induction false} CompleteOk(t: Transfer, writes: nat)
    requires TransferOk(t) && !t.recalled && !t.published && t.marker.Some?
    ensures TransferOk(Complete(t, writes))
  {
    hide MarkerOk, Whole;
    var m := t.marker.value;
    if |m.receivedIdx| >= m.desc.total && m.receivedBytes == m.desc.size { FullIsWhole(m, t.store); }
  }

  /** While an index is missing the attachment was not finalised. */
  lemma {:induction false} MissingMeansUnfinished(t: Transfer, idx: int)
    requires TransferOk(t) && !t.recalled && t.marker.Some?
    requires 0 <= idx < t.marker.value.desc.total && idx !in t.marker.value.receivedIdx
    ensures t.meta.None?
  {
    var m := t.marker.value;
    Pigeonhole(m.receivedIdx, m.desc.total);
    assert idx in UpTo(m.desc.total) && idx !in Elements(m.receivedIdx);
  }

  lemma {:induction false} AcceptOk(t: Transfer, c: Chunk, full: Full, writes: nat)
    requires TransferOk(t) && !t.recalled && !t.published && t.marker.Some? && ValidChunk(c) && t.marker.value.desc == c.desc
    ensures TransferOk(Accept(t, c, full, writes))
  {
    hide MarkerOk, Whole;
    var m := t.marker.value;
    if c.idx in m.receivedIdx {
      CompleteOk(t, writes);
    } else if m.receivedBytes + |c.data| <= m.desc.size {
      MissingMeansUnfinished(t, c.idx);
      RecordedOk(m, t.store, c);
      if writes >= 2 {
        CompleteOk(t.(store := t.store[c.idx := c.data], marker := Some(Recorded(m, c))), writes - 2);
      }
    }
  }

  lemma {:induction false} StepOk(t: Transfer, e: Event)
    requires TransferOk(t)
    ensures TransferOk(Step(t, e))
  {
    hide MarkerOk, Whole, Accept;
    if e.Arrive? && ValidChunk(e.c) && !t.recalled && !t.published {
      if t.marker.None? && t.meta.None? {
        FreshOk(e.c, t.store);
        if e.env.writes > 0 {
          AcceptOk(t.(marker := Some(Marker(e.c.desc, [], 0))), e.c, e.env.full, e.env.writes - 1);
        }
      } else if t.marker.Some? && t.marker.value.desc == e.c.desc {
        AcceptOk(t, e.c, e.env.full, e.env.writes);
      }
    }
  }

  lemma {:induction false} RunOk(es: seq<Event>)
    ensures TransferOk(Run(es))
  {
    hide Step, TransferOk;
    if es == [] {
      assert TransferOk(NO_TRANSFER) by { StartOk(); }
    } else {
      RunOk(es[..|es| - 1]);
      StepOk(Run(es[..|es| - 1]), es[|es| - 1]);
    }
  }

  lemma {:induction false} StartOk()
    ensures TransferOk(NO_TRANSFER)
  {}

  /** In every run the marker's indices are distinct, in range and stored, and its
      byte count is exactly theirs and never above the claimed size. */
  lemma {:induction false} MarkerTruthful(es: seq<Event>)
    requires !Run(es).recalled && Run(es).marker.Some?
    ensures MarkerOk(Run(es).marker.value, Run(es).store)
  {
    hide Run, MarkerOk, Whole;
    RunOk(es);
  }

  /** In every run a published, not recalled transfer reads back as all of its
      chunks, with exactly the claimed number of bytes. */
  lemma {:induction false} PublishedIsWhole(es: seq<Event>)
    requires !Run(es).recalled && Run(es).published
    ensures var t := Run(es);
      && t.meta.Some? && 1 <= t.meta.value.total
      && Blob(t).Some? && |Blob(t).value| == t.meta.value.size
      && forall i :: 0 <= i < t.meta.value.total ==> i in t.store
  {
    hide Run, MarkerOk;
    RunOk(es);
  }

  /** A recall is final: whatever arrives later, and wherever it is interrupted, nothing
      of a recalled transfer is stored, recorded or readable again. */
  lemma {:induction false} RecallIsFinal(es: seq<Event>)
    requires Run(es).recalled
    ensures Run(es).store == map[] && Run(es).marker.None? && Run(es).meta.None?
  {
    hide Accept, ValidChunk;
    if es != [] && Run(es[..|es| - 1]).recalled { RecallIsFinal(es[..|es| - 1]); }
    if es != [] { RecalledBefore(Run(es[..|es| - 1]), es[|es| - 1]); }
  }

  lemma {:induction false} RecalledBefore(t: Transfer, e: Event)
    requires Step(t, e).recalled
    ensures t.recalled || e.Recall?
  {}

  /** Nothing durable is left of the transfer, and further chunks of it are ignored. */
  predicate Abandoned(t: Transfer) { t.marker.None? && t.store == map[] && t.meta.None? && t.dropped }

  predicate Untouched(t: Transfer, u: Transfer) { u.(dropped := t.dropped) == t }

  /** What is refused, or not admitted by the quota, or belongs to another description, or
      is more than the claimed size leaves room for, stores nothing. */
  lemma {:induction false} UnwantedStoresNothing(t: Transfer, c: Chunk, env: Env)
    requires !t.recalled
    requires
      || env.refused || t.dropped || t.published
      || (t.marker.None? && (t.meta.Some? || !env.admitted))
      || (t.marker.Some? && t.marker.value.desc != c.desc)
      || (t.marker.Some? && c.idx !in t.marker.value.receivedIdx && t.marker.value.receivedBytes + |c.data| > c.desc.size)
    ensures Untouched(t, Receive(t, c, env))
  {}

  /** A transfer is given up, with everything stored of it, when storage is full at a new
      chunk, when all its chunks are there with the wrong number of bytes, and when the
      sweep finds it stale. */
  lemma {:induction false} GivenUp(t: Transfer, c: Chunk, env: Env)
    requires t.marker.Some? && !t.recalled && !t.published && !t.dropped && !env.refused && env.writes >= 4
    requires ValidChunk(c) && t.marker.value.desc == c.desc
    ensures var m := t.marker.value;
      && (c.idx !in m.receivedIdx && m.receivedBytes + |c.data| <= m.desc.size && env.full != No ==> Abandoned(Receive(t, c, env)))
      && (c.idx !in m.receivedIdx && m.receivedBytes + |c.data| < m.desc.size && |m.receivedIdx| + 1 >= m.desc.total ==>
            Abandoned(Receive(t, c, env)))
      && (c.idx in m.receivedIdx && |m.receivedIdx| >= m.desc.total && m.receivedBytes != m.desc.size ==> Abandoned(Receive(t, c, env)))
      && Untouched(Step(t, Sweep(env.writes)), t.(marker := None, store := map[], meta := None))
  {}

  // ---------------------------------------------------------------------------
  // An honest sender

  function CeilChunks(n: nat): nat { (n + CHUNK_BYTES - 1) / CHUNK_BYTES }

  /** `Math.max(1, Math.ceil(data.length / CHUNK_BYTES))` */
  function Pieces(data: Bytes): nat { if CeilChunks(|data|) > 1 then CeilChunks(|data|) else 1 }

  function Clip(n: int, max: nat): nat { if n < 0 then 0 else if n > max then max else n }

  /** `data.slice(idx * chunkBytes, (idx + 1) * chunkBytes)` */
  function Piece(data: Bytes, idx: nat): Bytes {
    data[Clip(idx * CHUNK_BYTES, |data|)..Clip((idx + 1) * CHUNK_BYTES, |data|)]
  }

  ghost predicate Honest(e: Event, data: Bytes) {
    e.Arrive? && ValidChunk(e.c) ==>
      e.c.desc.total == Pieces(data) && e.c.desc.size == |data| && e.c.data == Piece(data, e.c.idx)
  }

  /** Everything stored is a piece of `data`. */
  ghost predicate FromData(t: Transfer, data: Bytes) {
    && (t.marker.Some? ==> t.marker.value.desc.total == Pieces(data) && t.marker.value.desc.size == |data|)
    && (t.meta.Some? ==> t.meta.value.total == Pieces(data) && t.meta.value.size == |data|)
    && (forall i :: i in t.store ==> 0 <= i && t.store[i] == Piece(data, i))
  }

  lemma {:induction false} HonestDiscard(t: Transfer, writes: nat, data: Bytes)
    requires FromData(t, data)
    ensures FromData(Discard(t, writes), data)
  {
    hide Piece, Pieces;
  }

  lemma {:induction false} HonestComplete(t: Transfer, writes: nat, data: Bytes)
    requires FromData(t, data) && t.marker.Some?
    ensures FromData(Complete(t, writes), data)
  {
    hide Piece, Pieces, Discard;
    HonestDiscard(t, writes, data);
  }

  lemma {:induction false} HonestWrite(t: Transfer, c: Chunk, data: Bytes)
    requires FromData(t, data) && t.marker.Some? && 0 <= c.idx && c.data == Piece(data, c.idx)
    ensures var u := t.(store := t.store[c.idx := c.data]);
      FromData(u, data) && FromData(Crash(u), data) && FromData(u.(marker := Some(Recorded(t.marker.value, c))), data)
  {
    hide Piece, Pieces;
  }

  lemma {:induction false} HonestAccept(t: Transfer, c: Chunk, full: Full, writes: nat, data: Bytes)
    requires FromData(t, data) && FromData(Crash(t), data)
    requires t.marker.Some? && 0 <= c.idx && c.data == Piece(data, c.idx)
    ensures FromData(Accept(t, c, full, writes), data)
  {
    hide Piece, FromData, Discard, Complete, Recorded;
    var m, u := t.marker.value, t.(store := t.store[c.idx := c.data]);
    HonestDiscard(t, writes, data);
    HonestComplete(t, writes, data);
    HonestWrite(t, c, data);
    if c.idx !in m.receivedIdx && writes > 0 {
      HonestDiscard(u, writes - 1, data);
      if writes > 1 { HonestComplete(u.(marker := Some(Recorded(m, c))), writes - 2, data); }
    }
  }

  lemma {:induction false} HonestStep(t: Transfer, e: Event, data: Bytes)
    requires FromData(t, data) && Honest(e, data)
    ensures FromData(Step(t, e), data)
  {
    hide Piece, Pieces, Accept, Discard;
    if e.Arrive? && !e.env.refused && !t.dropped && ValidChunk(e.c) && !t.recalled && !t.published {
      if t.marker.None? && t.meta.None? && e.env.admitted && e.env.writes > 0 {
        HonestAccept(t.(marker := Some(Marker(e.c.desc, [], 0))), e.c, e.env.full, e.env.writes - 1, data);
      } else if t.marker.Some? && t.marker.value.desc == e.c.desc {
        HonestAccept(t, e.c, e.env.full, e.env.writes, data);
      }
    }
    if e.Sweep? { HonestDiscard(t, e.writes, data); }
  }

  lemma {:induction false} HonestRun(es: seq<Event>, data: Bytes)
    requires forall k :: 0 <= k < |es| ==> Honest(es[k], data)
    ensures FromData(Run(es), data)
  {
    hide Step, Honest, Piece, Pieces;
    if es != [] {
      HonestRun(es[..|es| - 1], data);
      HonestStep(Run(es[..|es| - 1]), es[|es| - 1], data);
    }
  }

  lemma {:induction false} PieceJoins(data: Bytes, n: nat)
    ensures var a, b := Clip(n * CHUNK_BYTES, |data|), Clip((n + 1) * CHUNK_BYTES, |data|);
      a <= b && data[..a] + Piece(data, n) == data[..b]
  {
    var a, b := Clip(n * CHUNK_BYTES, |data|), Clip((n + 1) * CHUNK_BYTES, |data|);
    assert data[..b][..a] == data[..a];
  }

  /** The first n pieces are the first n chunk lengths of the data. */
  lemma {:induction false} JoinedPieces(store: Store, data: Bytes, n: nat)
    requires Has(store, n) && forall i :: 0 <= i < n ==> store[i] == Piece(data, i)
    ensures Joined(store, n) == data[..Clip(n * CHUNK_BYTES, |data|)]
  {
    hide Piece, Clip;
    if n == 0 {
      ClipNothing(data);
    } else {
      JoinedPieces(store, data, n - 1);
      PieceJoins(data, n - 1);
    }
  }

  lemma {:induction false} ClipNothing(data: Bytes)
    ensures data[..Clip(0 * CHUNK_BYTES, |data|)] == []
  {}

  lemma {:induction false} PiecesCover(data: Bytes)
    ensures Clip(Pieces(data) * CHUNK_BYTES, |data|) == |data|
  {
    assert CeilChunks(|data|) * CHUNK_BYTES >= |data|;
  }

  /** Whatever the order, the duplicates and the crashes: when an honest sender's
      attachment is published it reads back as the original data. */
  lemma {:induction false} HonestTransferExact(es: seq<Event>, data: Bytes)
    requires forall k :: 0 <= k < |es| ==> Honest(es[k], data)
    requires Run(es).published && !Run(es).recalled
    ensures var t := Run(es); t.meta.Some? && t.meta.value.total >= 1 && Blob(t) == Some(data)
  {
    hide Run, Honest;
    var t := Run(es);
    HonestRun(es, data);
    PublishedIsWhole(es);
    hide Piece, Pieces, Clip;
    JoinedPieces(t.store, data, t.meta.value.total);
    PiecesCover(data);
    assert Joined(t.store, t.meta.value.total) == data[..|data|] == data;
  }

  /** What the sender cuts passes every check of the receiver: for every attachment of at
      most 30 MiB, every piece is one of `Pieces(data)`, of 48 KiB but for the last, and
      makes a valid chunk. */
  lemma {:induction false} PiecesAreValid(data: Bytes, d: Desc, idx: nat)
    requires |data| <= 31_457_280 && d.total == Pieces(data) && d.size == |data| && idx < Pieces(data)
    ensures ValidChunk(Chunk(d, idx, Piece(data, idx)))
    ensures |Piece(data, idx)| == if idx + 1 < Pieces(data) then 49_152 else |data| - 49_152 * idx
  {
    assert CeilChunks(|data|) <= |data| <= CeilChunks(|data|) * CHUNK_BYTES;
  }

  /** From nothing, with no obstacle, a chunk leaves a trace if and only if its descriptor
      and its payload are within the limits. */
  lemma {:induction false} OpensExactly(c: Chunk, env: Env)
    requires !env.refused && env.admitted && env.full == No && env.writes >= 6
    ensures Receive(NO_TRANSFER, c, env) != NO_TRANSFER <==>
      && 1 <= c.desc.total <= 800 && 0 <= c.idx < c.desc.total
      && 0 <= c.desc.size <= 31_457_280 && |c.data| <= 262_144
      && (c.desc.size == 0 ==> c.desc.total == 1 && c.data == [])
      && (c.desc.size > 0 ==> c.desc.total <= c.desc.size && c.data != [])
  {
    if ValidChunk(c) {
      var m := Marker(c.desc, [], 0);
      var t := NO_TRANSFER.(marker := Some(m));
      assert Receive(NO_TRANSFER, c, env) == Accept(t, c, No, env.writes - 1);
      if |c.data| <= c.desc.size { assert Recorded(m, c).receivedIdx == [c.idx]; }
    }
  }

  /** A chunk of an honest transfer that meets no obstacle on its way in. */
  ghost predicate Faultless(e: Event, data: Bytes, d: Desc) {
    && e.Arrive? && e.c.desc == d && 0 <= e.c.idx < Pieces(data) && e.c.data == Piece(data, e.c.idx)
    && !e.env.refused && e.env.admitted && e.env.full == No && e.env.writes >= 6
  }

  lemma {:induction false} FaultlessValid(e: Event, data: Bytes, d: Desc)
    requires Faultless(e, data, d) && |data| <= 31_457_280 && d.total == Pieces(data) && d.size == |data|
    ensures ValidChunk(e.c)
  {
    hide Piece, Pieces, ValidChunk;
    PiecesAreValid(data, d, e.c.idx);
  }

  ghost function Arrived(es: seq<Event>): set<int> {
    if es == [] then {} else Arrived(es[..|es| - 1]) + if es[|es| - 1].Arrive? then {es[|es| - 1].c.idx} else {}
  }

  function PieceStore(data: Bytes): Store { map i | i in UpTo(Pieces(data)) :: Piece(data, i) }

  lemma {:induction false} AllPieces(data: Bytes)
    ensures Sum(LengthsOf(PieceStore(data), UpTo(Pieces(data)))) == |data|
  {
    var n, store := Pieces(data), PieceStore(data);
    hide Piece, Pieces, Clip, LengthsOf;
    JoinedLength(store, n);
    JoinedPieces(store, data, n);
    PiecesCover(data);
  }

  /** Honest chunks never run into the claimed size, and all of them reach it. */
  lemma {:induction false} HonestFits(store: Store, s: set<int>, data: Bytes)
    requires s <= UpTo(Pieces(data)) && forall i :: i in s ==> i in store && store[i] == Piece(data, i)
    ensures Sum(LengthsOf(store, s)) <= |data|
    ensures s == UpTo(Pieces(data)) ==> Sum(LengthsOf(store, s)) == |data|
  {
    hide Piece, Pieces;
    AllPieces(data);
    SumBelow(LengthsOf(store, s), LengthsOf(PieceStore(data), UpTo(Pieces(data))));
    if s == UpTo(Pieces(data)) {
      assert LengthsOf(store, s) == LengthsOf(PieceStore(data), s);
    }
  }

  /** The transfer is done, or has recorded exactly what arrived and lacks a chunk. */
  ghost predicate OnTrack(t: Transfer, d: Desc, arrived: set<int>) {
    && !t.recalled
    && (t.published
        || (!t.dropped && t.meta.None? && t.marker.Some? && t.marker.value.desc == d
            && Elements(t.marker.value.receivedIdx) == arrived && |t.marker.value.receivedIdx| < d.total))
  }

  /** One more honest chunk fits, and the last one makes the sizes meet. */
  lemma {:induction false} NextChunkFits(t: Transfer, c: Chunk, data: Bytes)
    requires TransferOk(t) && FromData(t, data) && !t.recalled && t.marker.Some?
    requires 0 <= c.idx < Pieces(data) && c.data == Piece(data, c.idx) && c.idx !in t.marker.value.receivedIdx
    ensures var m, n := t.marker.value, Recorded(t.marker.value, c);
      && n.receivedBytes <= |data| && |n.receivedIdx| <= Pieces(data)
      && Elements(n.receivedIdx) == Elements(m.receivedIdx) + {c.idx}
      && (|n.receivedIdx| == Pieces(data) ==> n.receivedBytes == |data|)
  {
    hide Piece, Pieces, LengthsOf, Elements, Distinct;
    var m := t.marker.value;
    var idx, s := m.receivedIdx + [c.idx], Elements(m.receivedIdx);
    ElementsAdd(m.receivedIdx, c.idx);
    LengthsWritten(t.store, s, c.idx, c.data);
    InElements(m.receivedIdx);
    HonestFits(t.store[c.idx := c.data], s + {c.idx}, data);
    Pigeonhole(idx, Pieces(data));
  }

  lemma {:induction false} InElements(s: seq<int>)
    ensures forall i :: i in Elements(s) <==> i in s
  {}

  lemma {:induction false} FaultlessAccept(t: Transfer, e: Event, data: Bytes, d: Desc, arrived: set<int>, writes: nat)
    requires Faultless(e, data, d) && ValidChunk(e.c) && d.total == Pieces(data) && d.size == |data| && writes >= 5
    requires TransferOk(t) && FromData(t, data) && OnTrack(t, d, arrived) && !t.published
    ensures OnTrack(Accept(t, e.c, No, writes), d, arrived + {e.c.idx})
  {
    hide Piece, Pieces, TransferOk, FromData, Elements;
    InElements(t.marker.value.receivedIdx);
    if e.c.idx in t.marker.value.receivedIdx {
      assert arrived + {e.c.idx} == arrived;
    } else {
      NextChunkFits(t, e.c, data);
    }
  }

  lemma {:induction false} OnTrackRun(es: seq<Event>, data: Bytes, d: Desc)
    requires es != [] && |data| <= 31_457_280 && d.total == Pieces(data) && d.size == |data|
    requires forall k :: 0 <= k < |es| ==> Faultless(es[k], data, d)
    ensures OnTrack(Run(es), d, Arrived(es))
  {
    hide Piece, Pieces, Accept, FromData, TransferOk, MarkerOk, ValidChunk;
    var rest, e := es[..|es| - 1], es[|es| - 1];
    forall k | 0 <= k < |rest| ensures Honest(rest[k], data) { assert Faultless(es[k], data, d); }
    HonestRun(rest, data);
    RunOk(rest);
    assert Faultless(es[|es| - 1], data, d);
    FaultlessValid(e, data, d);
    if rest == [] {
      FreshTrack(e, data, d);
      FaultlessAccept(NO_TRANSFER.(marker := Some(Marker(d, [], 0))), e, data, d, {}, e.env.writes - 1);
    } else {
      OnTrackRun(rest, data, d);
      if !Run(rest).published { FaultlessAccept(Run(rest), e, data, d, Arrived(rest), e.env.writes); }
    }
  }

  lemma {:induction false} FreshTrack(e: Event, data: Bytes, d: Desc)
    requires Faultless(e, data, d) && ValidChunk(e.c) && d.total == Pieces(data) && d.size == |data|
    ensures var t := NO_TRANSFER.(marker := Some(Marker(d, [], 0)));
      TransferOk(t) && FromData(t, data) && OnTrack(t, d, {})
  {
    hide Piece, Pieces;
    FreshOk(e.c, map[]);
  }

  /** Once every chunk of an honest split has arrived, in whatever order and however
      often, with no failure on the way, the attachment is published, and is the
      original data, for every attachment of at most 30 MiB. */
  lemma {:induction false} HonestTransferCompletes(es: seq<Event>, data: Bytes, d: Desc)
    requires |data| <= 31_457_280 && d.total == Pieces(data) && d.size == |data|
    requires forall k :: 0 <= k < |es| ==> Faultless(es[k], data, d)
    requires Arrived(es) == UpTo(Pieces(data))
    ensures var t := Run(es);
      t.published && t.meta.Some? && t.meta.value.total >= 1 && Blob(t) == Some(data)
  {
    hide Piece, Run, TransferOk, MarkerOk, FromData;
    assert 0 in UpTo(Pieces(data));
    OnTrackRun(es, data, d);
    var t := Run(es);
    if !t.published {
      RunOk(es);
      MarkerDistinct(t);
      DistinctSize(t.marker.value.receivedIdx);
      assert false;
    }
    forall k | 0 <= k < |es| ensures Honest(es[k], data) { assert Faultless(es[k], data, d); }
    HonestTransferExact(es, data);
  }

  lemma {:induction false} MarkerDistinct(t: Transfer)
    requires TransferOk(t) && !t.recalled && t.marker.Some?
    ensures Distinct(t.marker.value.receivedIdx)
  {}
}
