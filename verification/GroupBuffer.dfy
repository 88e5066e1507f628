/** Group frames that arrive before the roster revision they were sent under wait in
    a bounded buffer until that revision is installed. */
module GroupBuffer {
  import opened Codec
  import opened Sums
  import Utf8

  const MAX_IDS := 8
  const MAX_PER_GROUP := 12
  const MAX_BYTES := 2 * 1024 * 1024
  const TTL_MS := 2 * 60_000
  const MAX_TOMBSTONES := MAX_IDS * 2

  type Millis = t: int | 0 < t witness 1

  /** Message content; kinds that are never buffered are all alike. */
  datatype Content = Text(text: string) | File(data: Bytes, name: string, mime: string) | Reply(inner: Content) | Other

  datatype Frame = Frame(
    revision: int, ackId: int, senderKey: string, content: Content, mid: string, bytes: nat, queuedAt: Millis)

  /** One key of the source's insertion-ordered `Map`. */
  datatype Entry = Entry(id: string, frames: seq<Frame>)
  datatype Tombstone = Tombstone(id: string, at: Millis)

  datatype Buffer = Buffer(pending: seq<Entry>, bytes: int, expired: seq<Tombstone>)

  const EMPTY := Buffer([], 0, [])

  datatype Outcome = Queued | Retained | Duplicate | Reject

  /** `groupTransitionContentBytes`; None stands for infinity. */
  function ContentBytes(c: Content, depth: nat): Option<nat> {
    if depth > 1 then None else
      match c
      case Text(text) => Some(|Utf8.Encode(text)| + 96)
      case File(data, name, mime) => Some(|data| + |Utf8.Encode(name + mime)| + 192)
      case Reply(inner) =>
        var n := ContentBytes(inner, depth + 1);
        if n.Some? then Some(256 + n.value) else None
      case Other => None
  }

  // ---------------------------------------------------------------------------
  // The map of groups

  function Find(p: seq<Entry>, id: string): (i: int)
    ensures -1 <= i < |p|
    ensures i >= 0 ==> p[i].id == id
    ensures i < 0 ==> forall e :: e in p ==> e.id != id
  {
    if p == [] then -1
    else if p[|p| - 1].id == id then |p| - 1
    else Find(p[..|p| - 1], id)
  }

  function FramesOf(p: seq<Entry>, id: string): seq<Frame> {
    if Find(p, id) >= 0 then p[Find(p, id)].frames else []
  }

  function Put(p: seq<Entry>, id: string, frames: seq<Frame>): seq<Entry> {
    if Find(p, id) >= 0 then p[Find(p, id) := Entry(id, frames)] else p + [Entry(id, frames)]
  }

  function Without(p: seq<Entry>, id: string): seq<Entry> {
    if Find(p, id) >= 0 then p[..Find(p, id)] + p[Find(p, id) + 1..] else p
  }

  function FrameBytes(frames: seq<Frame>): nat {
    if frames == [] then 0 else FrameBytes(frames[..|frames| - 1]) + frames[|frames| - 1].bytes
  }

  function TotalBytes(p: seq<Entry>): nat {
    if p == [] then 0 else TotalBytes(p[..|p| - 1]) + FrameBytes(p[|p| - 1].frames)
  }

  // ---------------------------------------------------------------------------
  // Expiry

  /** `frames.filter(keep)` */
  function Filter(frames: seq<Frame>, keep: Frame -> bool): seq<Frame> {
    if frames == [] then [] else
      var rest, last := Filter(frames[..|frames| - 1], keep), frames[|frames| - 1];
      if keep(last) then rest + [last] else rest
  }

  function Younger(now: Millis): Frame -> bool { (f: Frame) => now - f.queuedAt <= TTL_MS }
  function Above(revision: int): Frame -> bool { (f: Frame) => f.revision > revision }
  function UpTo(revision: int): Frame -> bool { (f: Frame) => f.revision <= revision }

  function Fresh(frames: seq<Frame>, now: Millis): seq<Frame> { Filter(frames, Younger(now)) }

  function Pruned(p: seq<Entry>, now: Millis): seq<Entry> {
    if p == [] then [] else
      var last := p[|p| - 1];
      var live := Fresh(last.frames, now);
      Pruned(p[..|p| - 1], now) + if live != [] then [Entry(last.id, live)] else []
  }

  function FindTomb(ts: seq<Tombstone>, id: string): (i: int)
    ensures -1 <= i < |ts|
    ensures i >= 0 ==> ts[i].id == id
    ensures i < 0 ==> forall t :: t in ts ==> t.id != id
  {
    if ts == [] then -1
    else if ts[|ts| - 1].id == id then |ts| - 1
    else FindTomb(ts[..|ts| - 1], id)
  }

  /** The oldest tombstones go first. */
  function Trim(ts: seq<Tombstone>): seq<Tombstone> {
    if |ts| > MAX_TOMBSTONES then Trim(ts[1..]) else ts
  }

  function Bury(ts: seq<Tombstone>, id: string, now: Millis): seq<Tombstone> {
    var i := FindTomb(ts, id);
    Trim(if i >= 0 then ts[i := Tombstone(id, now)] else ts + [Tombstone(id, now)])
  }

  function Unbury(ts: seq<Tombstone>, id: string): seq<Tombstone> {
    var i := FindTomb(ts, id);
    if i >= 0 then ts[..i] + ts[i + 1..] else ts
  }

  function Buried(p: seq<Entry>, ts: seq<Tombstone>, now: Millis): seq<Tombstone> {
    if p == [] then ts else
      var before := Buried(p[..|p| - 1], ts, now);
      if Fresh(p[|p| - 1].frames, now) == [] then Bury(before, p[|p| - 1].id, now) else before
  }

  function Swept(b: Buffer, now: Millis): Buffer {
    Buffer(Pruned(b.pending, now), TotalBytes(Pruned(b.pending, now)), Buried(b.pending, b.expired, now))
  }

  // ---------------------------------------------------------------------------
  // Queueing and flushing

  /** What arrives: the authenticated sender and revision, and the relay row it is in. */
  datatype Arrival = Arrival(
    groupId: string, revision: Option<int>, hashOk: bool, senderKey: string, content: Content, mid: string, ackId: int)

  predicate WellFormed(a: Arrival) {
    a.revision.Some? && a.revision.value >= 1 && a.hashOk && a.mid != ""
  }

  predicate Entombed(b: Buffer, id: string, now: Millis) {
    var i := FindTomb(b.expired, id);
    i >= 0 && now - b.expired[i].at <= TTL_MS
  }

  predicate Same(f: Frame, a: Arrival) { f.mid == a.mid && f.senderKey == a.senderKey }

  /** The first buffered frame with the same sender and message id. */
  function FindSame(frames: seq<Frame>, a: Arrival): (i: int)
    ensures -1 <= i < |frames|
    ensures i >= 0 ==> Same(frames[i], a)
    ensures forall j :: 0 <= j < |frames| && (i < 0 || j < i) ==> !Same(frames[j], a)
  {
    if frames == [] then -1 else
      var i := FindSame(frames[..|frames| - 1], a);
      if i >= 0 then i else if Same(frames[|frames| - 1], a) then |frames| - 1 else -1
  }

  function NewFrame(a: Arrival, bytes: nat, now: Millis): Frame
    requires a.revision.Some?
  {
    Frame(a.revision.value, a.ackId, a.senderKey, a.content, a.mid, bytes, now)
  }

  predicate HasRoom(b: Buffer, id: string, bytes: nat) {
    && |FramesOf(b.pending, id)| < MAX_PER_GROUP
    && b.bytes + bytes <= MAX_BYTES
    && (Find(b.pending, id) >= 0 || |b.pending| < MAX_IDS)
  }

  function Queue(b: Buffer, a: Arrival, now: Millis): (Buffer, Outcome) {
    if !WellFormed(a) then (b, Reject) else
      var s := Swept(b, now);
      if Entombed(s, a.groupId, now) then (s, Reject) else
        var u := s.(expired := Unbury(s.expired, a.groupId));
        var bytes := ContentBytes(a.content, 0);
        if bytes.None? || bytes.value > MAX_BYTES then (u, Reject) else
          var existing := FramesOf(u.pending, a.groupId);
          var i := FindSame(existing, a);
          if i >= 0 then (u, if existing[i].ackId == a.ackId then Retained else Duplicate)
          else if !HasRoom(u, a.groupId, bytes.value) then (u, Reject)
          else (u.(pending := Put(u.pending, a.groupId, existing + [NewFrame(a, bytes.value, now)]),
                   bytes := u.bytes + bytes.value), Queued)
  }

  /** Delivering the frame at `throwsAt` fails, and it is one the flush delivers. */
  predicate Breaks(frames: seq<Frame>, revision: int, throwsAt: Option<nat>) {
    throwsAt.Some? && throwsAt.value < |frames| && frames[throwsAt.value].revision <= revision
  }

  /** The buffer after a flush, and the frames it delivered, in order. If delivering
      one throws, those before it are delivered and nothing is removed. */
  function Flush(b: Buffer, id: string, revision: int, throwsAt: Option<nat>): (Buffer, seq<Frame>) {
    var frames := FramesOf(b.pending, id);
    if frames == [] then (b, [])
    else if Breaks(frames, revision, throwsAt) then (b, Filter(frames[..throwsAt.value], UpTo(revision)))
    else
      var remaining := Filter(frames, Above(revision));
      var pending := if remaining != [] then Put(b.pending, id, remaining) else Without(b.pending, id);
      (b.(pending := pending, bytes := b.bytes - FrameBytes(Filter(frames, UpTo(revision)))), Filter(frames, UpTo(revision)))
  }

  datatype Event = Arrives(a: Arrival, now: Millis) | Installs(id: string, revision: int, throwsAt: Option<nat>)

  function Step(b: Buffer, e: Event): Buffer {
    match e
    case Arrives(a, now) => Queue(b, a, now).0
    case Installs(id, revision, throwsAt) => Flush(b, id, revision, throwsAt).0
  }

  function Run(es: seq<Event>): Buffer {
    if es == [] then EMPTY else Step(Run(es[..|es| - 1]), es[|es| - 1])
  }

  // ---------------------------------------------------------------------------
  // The invariant

  ghost predicate UniqueIds(p: seq<Entry>) { forall i, j :: 0 <= i < j < |p| ==> p[i].id != p[j].id }

  ghost predicate SameKey(f: Frame, g: Frame) { f.senderKey == g.senderKey && f.mid == g.mid }

  ghost predicate DistinctKeys(frames: seq<Frame>) {
    forall i, j :: 0 <= i < j < |frames| ==> !SameKey(frames[i], frames[j])
  }

  ghost predicate FramesOk(frames: seq<Frame>) { 0 < |frames| <= MAX_PER_GROUP && DistinctKeys(frames) }

  ghost predicate EntriesOk(p: seq<Entry>) { forall i :: 0 <= i < |p| ==> FramesOk(p[i].frames) }

  ghost predicate UniqueTombs(ts: seq<Tombstone>) { forall i, j :: 0 <= i < j < |ts| ==> ts[i].id != ts[j].id }

  /** No group is both waiting and entombed. */
  ghost predicate Apart(p: seq<Entry>, ts: seq<Tombstone>) {
    forall i, j :: 0 <= i < |p| && 0 <= j < |ts| ==> p[i].id != ts[j].id
  }

  ghost predicate BufferOk(b: Buffer) {
    && UniqueIds(b.pending) && EntriesOk(b.pending) && |b.pending| <= MAX_IDS
    && b.bytes == TotalBytes(b.pending) && b.bytes <= MAX_BYTES
    && |b.expired| <= MAX_TOMBSTONES && UniqueTombs(b.expired) && Apart(b.pending, b.expired)
  }

  // ---------------------------------------------------------------------------
  // Filters

  lemma {:induction false} DistinctLast(rest: seq<Frame>, last: Frame)
    requires DistinctKeys(rest + [last])
    ensures DistinctKeys(rest) && forall g :: g in rest ==> !SameKey(g, last)
  {
    hide SameKey;
    var all := rest + [last];
    forall g | g in rest ensures !SameKey(g, last) {
      var i :| 0 <= i < |rest| && rest[i] == g;
      assert all[i] == g && all[|rest|] == last;
    }
    forall i, j | 0 <= i < j < |rest| ensures !SameKey(rest[i], rest[j]) {
      assert all[i] == rest[i] && all[j] == rest[j];
    }
  }

  lemma {:induction false} FilterStep(rest: seq<Frame>, last: Frame, keep: Frame -> bool)
    ensures Filter(rest + [last], keep) == if keep(last) then Filter(rest, keep) + [last] else Filter(rest, keep)
    ensures FrameBytes(rest + [last]) == FrameBytes(rest) + last.bytes
  {
    assert (rest + [last])[..|rest|] == rest;
  }

  /** A filter keeps exactly the frames it selects, in order. */
  lemma {:induction false} FilterKeeps(frames: seq<Frame>, keep: Frame -> bool)
    ensures forall f :: f in Filter(frames, keep) <==> f in frames && keep(f)
    ensures |Filter(frames, keep)| <= |frames|
  {
    if frames != [] {
      var rest, last := frames[..|frames| - 1], frames[|frames| - 1];
      FilterKeeps(rest, keep);
      assert frames == rest + [last];
    }
  }

  lemma {:induction false} FilterDistinct(frames: seq<Frame>, keep: Frame -> bool)
    requires DistinctKeys(frames)
    ensures DistinctKeys(Filter(frames, keep))
  {
    hide SameKey;
    if frames != [] {
      var rest, last := frames[..|frames| - 1], frames[|frames| - 1];
      assert frames == rest + [last];
      DistinctLast(rest, last);
      FilterDistinct(rest, keep);
      FilterKeeps(rest, keep);
    }
  }

  lemma {:induction false} FilterBytes(frames: seq<Frame>, keep: Frame -> bool)
    ensures FrameBytes(Filter(frames, keep)) <= FrameBytes(frames)
  {
    if frames != [] {
      var rest, last := frames[..|frames| - 1], frames[|frames| - 1];
      assert frames == rest + [last];
      FilterBytes(rest, keep);
      FilterStep(rest, last, keep);
      FilterStep(Filter(rest, keep), last, keep);
    }
  }

  lemma {:induction false} SplitBytes(frames: seq<Frame>, revision: int)
    ensures FrameBytes(Filter(frames, Above(revision))) + FrameBytes(Filter(frames, UpTo(revision))) == FrameBytes(frames)
  {
    if frames != [] {
      var rest, last := frames[..|frames| - 1], frames[|frames| - 1];
      assert frames == rest + [last];
      SplitBytes(rest, revision);
      FilterStep(rest, last, Above(revision));
      FilterStep(rest, last, UpTo(revision));
      FilterStep(Filter(rest, Above(revision)), last, Above(revision));
      FilterStep(Filter(rest, UpTo(revision)), last, UpTo(revision));
    }
  }

  lemma {:induction false} FreshOk(frames: seq<Frame>, now: Millis)
    requires FramesOk(frames)
    ensures Fresh(frames, now) != [] ==> FramesOk(Fresh(frames, now))
    ensures FrameBytes(Fresh(frames, now)) <= FrameBytes(frames)
  {
    hide SameKey, Filter;
    FilterKeeps(frames, Younger(now));
    FilterDistinct(frames, Younger(now));
    FilterBytes(frames, Younger(now));
  }

  // ---------------------------------------------------------------------------
  // Groups

  lemma {:induction false} TotalStep(p: seq<Entry>, e: Entry)
    ensures TotalBytes(p + [e]) == TotalBytes(p) + FrameBytes(e.frames)
  {
    assert (p + [e])[..|p|] == p;
  }

  lemma {:induction false} TotalConcat(p: seq<Entry>, q: seq<Entry>)
    ensures TotalBytes(p + q) == TotalBytes(p) + TotalBytes(q)
  {
    hide FrameBytes;
    if q == [] {
      assert p + q == p;
    } else {
      TotalConcat(p, q[..|q| - 1]);
      assert p + q == (p + q[..|q| - 1]) + [q[|q| - 1]];
      TotalStep(p + q[..|q| - 1], q[|q| - 1]);
    }
  }

  lemma {:induction false} TotalAround(p: seq<Entry>, i: nat, e: Entry)
    requires i < |p|
    ensures TotalBytes(p[i := e]) == TotalBytes(p) - FrameBytes(p[i].frames) + FrameBytes(e.frames)
    ensures TotalBytes(p[..i] + p[i + 1..]) == TotalBytes(p) - FrameBytes(p[i].frames)
  {
    hide FrameBytes, TotalBytes;
    assert p == (p[..i] + [p[i]]) + p[i + 1..];
    assert p[i := e] == (p[..i] + [e]) + p[i + 1..];
    TotalConcat(p[..i] + [p[i]], p[i + 1..]);
    TotalConcat(p[..i] + [e], p[i + 1..]);
    TotalConcat(p[..i], p[i + 1..]);
    TotalStep(p[..i], p[i]);
    TotalStep(p[..i], e);
  }

  lemma {:induction false} FindUnique(p: seq<Entry>, i: nat)
    requires UniqueIds(p) && i < |p|
    ensures Find(p, p[i].id) == i
  {}

  lemma {:induction false} PutEffect(p: seq<Entry>, id: string, frames: seq<Frame>)
    requires UniqueIds(p) && EntriesOk(p) && FramesOk(frames)
    ensures UniqueIds(Put(p, id, frames)) && EntriesOk(Put(p, id, frames))
    ensures TotalBytes(Put(p, id, frames)) == TotalBytes(p) - FrameBytes(FramesOf(p, id)) + FrameBytes(frames)
    ensures |Put(p, id, frames)| == |p| + if Find(p, id) >= 0 then 0 else 1
    ensures forall e :: e in Put(p, id, frames) ==> e.id == id || e in p
  {
    hide FrameBytes, TotalBytes, FramesOk;
    if Find(p, id) >= 0 {
      TotalAround(p, Find(p, id), Entry(id, frames));
    } else {
      TotalStep(p, Entry(id, frames));
      NoBytes();
    }
  }

  lemma {:induction false} NoBytes()
    ensures FrameBytes([]) == 0 && TotalBytes([]) == 0
  {}

  lemma {:induction false} WithoutEffect(p: seq<Entry>, id: string)
    requires UniqueIds(p) && EntriesOk(p) && Find(p, id) >= 0
    ensures UniqueIds(Without(p, id)) && EntriesOk(Without(p, id)) && |Without(p, id)| == |p| - 1
    ensures TotalBytes(Without(p, id)) == TotalBytes(p) - FrameBytes(FramesOf(p, id))
    ensures forall e :: e in Without(p, id) <==> e in p && e.id != id
  {
    hide FrameBytes, TotalBytes, FramesOk;
    var i := Find(p, id);
    TotalAround(p, i, p[i]);
    var q := p[..i] + p[i + 1..];
    forall k | 0 <= k < |q| ensures q[k] in p && q[k].id != id {
      assert q[k] == if k < i then p[k] else p[k + 1];
    }
    forall e | e in p && e.id != id ensures e in q {
      var k :| 0 <= k < |p| && p[k] == e;
      assert q[if k < i then k else k - 1] == e;
    }
  }

  // ---------------------------------------------------------------------------
  // Pruning

  lemma {:induction false} PrunedStep(rest: seq<Entry>, e: Entry, now: Millis)
    ensures Pruned(rest + [e], now) ==
      if Fresh(e.frames, now) != [] then Pruned(rest, now) + [Entry(e.id, Fresh(e.frames, now))] else Pruned(rest, now)
  {
    hide Fresh;
    assert (rest + [e])[..|rest|] == rest;
  }

  lemma {:induction false} BuriedStep(rest: seq<Entry>, e: Entry, ts: seq<Tombstone>, now: Millis)
    ensures Buried(rest + [e], ts, now) ==
      if Fresh(e.frames, now) == [] then Bury(Buried(rest, ts, now), e.id, now) else Buried(rest, ts, now)
    ensures NewTombs(rest + [e], now) ==
      if Fresh(e.frames, now) == [] then NewTombs(rest, now) + [Tombstone(e.id, now)] else NewTombs(rest, now)
  {
    hide Fresh, Bury;
    assert (rest + [e])[..|rest|] == rest;
  }

  /** Every group left stood there before, with the frames still young. */
  /** The entry of a group that lives on. */
  predicate LivesOn(p: seq<Entry>, k: nat, e: Entry, now: Millis) {
    k < |p| && e == Entry(p[k].id, Fresh(p[k].frames, now)) && e.frames != []
  }

  lemma {:induction false} PrunedMembers(p: seq<Entry>, now: Millis)
    ensures forall e :: e in Pruned(p, now) ==> exists k: nat :: LivesOn(p, k, e, now)
    ensures forall k :: 0 <= k < |p| && Fresh(p[k].frames, now) != [] ==> Entry(p[k].id, Fresh(p[k].frames, now)) in Pruned(p, now)
    ensures |Pruned(p, now)| <= |p|
  {
    hide Fresh;
    if p != [] {
      var rest, last := p[..|p| - 1], p[|p| - 1];
      PrunedMembers(rest, now);
      forall e | e in Pruned(p, now) ensures exists k: nat :: LivesOn(p, k, e, now) {
        if e in Pruned(rest, now) {
          var k: nat :| LivesOn(rest, k, e, now);
          assert LivesOn(p, k, e, now);
        } else {
          assert LivesOn(p, |rest|, e, now);
        }
      }
    }
  }

  lemma {:induction false} PrunedUnique(p: seq<Entry>, now: Millis)
    requires UniqueIds(p)
    ensures UniqueIds(Pruned(p, now))
  {
    hide Fresh;
    if p != [] {
      var rest := p[..|p| - 1];
      var q := Pruned(rest, now);
      PrunedUnique(rest, now);
      PrunedMembers(rest, now);
      forall i | 0 <= i < |q| ensures q[i].id != p[|p| - 1].id {
        assert q[i] in q;
        var k: nat :| LivesOn(rest, k, q[i], now);
        assert rest[k] == p[k];
      }
    }
  }

  lemma {:induction false} PrunedFrom(p: seq<Entry>, now: Millis)
    requires UniqueIds(p) && EntriesOk(p)
    ensures forall e :: e in Pruned(p, now) ==> exists k :: 0 <= k < |p| && e == Entry(p[k].id, Fresh(p[k].frames, now)) && e.frames != []
    ensures forall k :: 0 <= k < |p| && Fresh(p[k].frames, now) != [] ==> Entry(p[k].id, Fresh(p[k].frames, now)) in Pruned(p, now)
    ensures UniqueIds(Pruned(p, now)) && |Pruned(p, now)| <= |p|
  {
    hide Fresh, FramesOk, Pruned, UniqueIds;
    PrunedMembers(p, now);
    PrunedUnique(p, now);
    forall e | e in Pruned(p, now) ensures exists k :: 0 <= k < |p| && e == Entry(p[k].id, Fresh(p[k].frames, now)) && e.frames != [] {
      var k: nat :| LivesOn(p, k, e, now);
    }
  }

  lemma {:induction false} NothingPruned(ts: seq<Tombstone>, now: Millis)
    ensures Pruned([], now) == [] && Buried([], ts, now) == ts && TotalBytes([]) == 0
  {}

  lemma {:induction false} PrunedEntries(p: seq<Entry>, now: Millis)
    requires UniqueIds(p) && EntriesOk(p)
    ensures EntriesOk(Pruned(p, now))
  {
    hide Fresh, FramesOk, Pruned, FrameBytes;
    PrunedFrom(p, now);
    var q := Pruned(p, now);
    forall i | 0 <= i < |q| ensures FramesOk(q[i].frames) {
      assert q[i] in q;
      var k :| 0 <= k < |p| && q[i] == Entry(p[k].id, Fresh(p[k].frames, now)) && q[i].frames != [];
      FreshOk(p[k].frames, now);
    }
  }

  lemma {:induction false} PrunedOk(p: seq<Entry>, now: Millis)
    requires UniqueIds(p) && EntriesOk(p)
    ensures EntriesOk(Pruned(p, now)) && TotalBytes(Pruned(p, now)) <= TotalBytes(p)
  {
    hide Fresh, FrameBytes, FramesOk, Pruned, TotalBytes;
    PrunedEntries(p, now);
    if p == [] {
      NothingPruned([], now);
    } else {
      var rest, last := p[..|p| - 1], p[|p| - 1];
      assert p == rest + [last];
      PrunedOk(rest, now);
      PrunedStep(rest, last, now);
      FreshOk(last.frames, now);
      TotalStep(rest, last);
      TotalStep(Pruned(rest, now), Entry(last.id, Fresh(last.frames, now)));
    }
  }

  /** The tombstones written while pruning, in order. */
  function NewTombs(p: seq<Entry>, now: Millis): seq<Tombstone> {
    if p == [] then [] else
      var rest := NewTombs(p[..|p| - 1], now);
      if Fresh(p[|p| - 1].frames, now) == [] then rest + [Tombstone(p[|p| - 1].id, now)] else rest
  }

  lemma {:induction false} NewTombsFrom(p: seq<Entry>, now: Millis)
    ensures |NewTombs(p, now)| <= |p|
    ensures forall t :: t in NewTombs(p, now) ==> t.at == now && exists k :: 0 <= k < |p| && p[k].id == t.id && Fresh(p[k].frames, now) == []
    ensures forall k :: 0 <= k < |p| && Fresh(p[k].frames, now) == [] ==> Tombstone(p[k].id, now) in NewTombs(p, now)
  {
    hide Fresh;
    if p != [] {
      var rest, last := p[..|p| - 1], p[|p| - 1];
      NewTombsFrom(rest, now);
      forall t | t in NewTombs(p, now)
        ensures t.at == now && exists k :: 0 <= k < |p| && p[k].id == t.id && Fresh(p[k].frames, now) == []
      {
        if t in NewTombs(rest, now) {
          var k :| 0 <= k < |rest| && rest[k].id == t.id && Fresh(rest[k].frames, now) == [];
          assert p[k] == rest[k];
        } else {
          assert p[|p| - 1].id == t.id;
        }
      }
    }
  }

  /** Exactly the newest 16 tombstones stay. */
  lemma {:induction false} NewestStay(ts: seq<Tombstone>)
    ensures Trim(ts) == if |ts| > 16 then ts[|ts| - 16..] else ts
    decreases |ts|
  {
    if |ts| > 16 {
      NewestStay(ts[1..]);
      assert ts[1..][|ts| - 17..] == ts[|ts| - 16..];
    }
  }

  /** Trimming drops old tombstones only: the newest stay. */
  lemma {:induction false} TrimKeepsEnd(early: seq<Tombstone>, late: seq<Tombstone>)
    requires |late| <= MAX_TOMBSTONES
    ensures exists d :: 0 <= d <= |early| && Trim(early + late) == early[d..] + late
    ensures |Trim(early + late)| <= MAX_TOMBSTONES
    decreases |early|
  {
    if |early + late| > MAX_TOMBSTONES {
      assert (early + late)[1..] == early[1..] + late;
      TrimKeepsEnd(early[1..], late);
      var d :| 0 <= d <= |early[1..]| && Trim(early[1..] + late) == early[1..][d..] + late;
      assert early[1..][d..] == early[d + 1..];
    } else {
      assert early[0..] == early;
    }
  }

  lemma {:induction false} FindTombAt(ts: seq<Tombstone>, id: string)
    ensures var i := FindTomb(ts, id);
      i >= 0 ==> forall j :: i < j < |ts| ==> ts[j].id != id
  {
    if ts != [] && ts[|ts| - 1].id != id {
      FindTombAt(ts[..|ts| - 1], id);
    }
  }

  ghost predicate NoTombOf(ts: seq<Tombstone>, id: string) { forall j :: 0 <= j < |ts| ==> ts[j].id != id }

  lemma {:induction false} BuryNew(ts: seq<Tombstone>, id: string, now: Millis)
    requires NoTombOf(ts, id)
    ensures Bury(ts, id, now) == Trim(ts + [Tombstone(id, now)])
  {
    hide Trim;
  }

  lemma {:induction false} TrimBounds(ts: seq<Tombstone>)
    ensures |Trim(ts)| <= MAX_TOMBSTONES
    decreases |ts|
  {
    if |ts| > MAX_TOMBSTONES { TrimBounds(ts[1..]); }
  }

  /** Pruning at most 8 groups, none of them entombed: what remains of the old
      tombstones, then one for every group that was dropped. */
  lemma {:induction false} BuriedShape(p: seq<Entry>, ts: seq<Tombstone>, now: Millis)
    requires UniqueIds(p) && Apart(p, ts) && |p| <= MAX_IDS && |ts| <= MAX_TOMBSTONES
    ensures exists d :: 0 <= d <= |ts| && Buried(p, ts, now) == ts[d..] + NewTombs(p, now)
    ensures |Buried(p, ts, now)| <= MAX_TOMBSTONES
  {
    hide Fresh, Bury, Trim;
    if p == [] {
      assert ts[0..] + NewTombs(p, now) == ts;
    } else {
      var rest, last := p[..|p| - 1], p[|p| - 1];
      assert p == rest + [last];
      BuriedShape(rest, ts, now);
      BuriedStep(rest, last, ts, now);
      var d :| 0 <= d <= |ts| && Buried(rest, ts, now) == ts[d..] + NewTombs(rest, now);
      if Fresh(last.frames, now) == [] {
        NewTombsFrom(rest, now);
        NotBuriedYet(rest, last, ts, d, now);
        var late := NewTombs(rest, now) + [Tombstone(last.id, now)];
        BuryNew(ts[d..] + NewTombs(rest, now), last.id, now);
        assert ts[d..] + NewTombs(rest, now) + [Tombstone(last.id, now)] == ts[d..] + late;
        TrimKeepsEnd(ts[d..], late);
        var k :| 0 <= k <= |ts[d..]| && Trim(ts[d..] + late) == ts[d..][k..] + late;
        assert ts[d..][k..] == ts[d + k..];
      }
    }
  }

  lemma {:induction false} NotBuriedYet(rest: seq<Entry>, last: Entry, ts: seq<Tombstone>, d: nat, now: Millis)
    requires UniqueIds(rest + [last]) && Apart(rest + [last], ts) && d <= |ts|
    ensures NoTombOf(ts[d..] + NewTombs(rest, now), last.id)
  {
    hide Fresh;
    var all := ts[d..] + NewTombs(rest, now);
    var p := rest + [last];
    NewTombsFrom(rest, now);
    forall j | 0 <= j < |all| ensures all[j].id != last.id {
      if j < |ts| - d {
        assert all[j] == ts[d + j] && p[|rest|] == last;
      } else {
        assert all[j] in NewTombs(rest, now);
        var k :| 0 <= k < |rest| && rest[k].id == all[j].id;
        assert p[k] == rest[k] && p[|rest|] == last;
      }
    }
  }

  lemma {:induction false} StillApart(p: seq<Entry>, ts: seq<Tombstone>, now: Millis)
    requires UniqueIds(p) && EntriesOk(p) && Apart(p, ts) && |p| <= MAX_IDS && |ts| <= MAX_TOMBSTONES
    ensures Apart(Pruned(p, now), Buried(p, ts, now))
  {
    hide Fresh, FramesOk;
    BuriedShape(p, ts, now);
    NewTombsFrom(p, now);
    PrunedFrom(p, now);
    var q, all := Pruned(p, now), Buried(p, ts, now);
    var d :| 0 <= d <= |ts| && all == ts[d..] + NewTombs(p, now);
    forall i, j | 0 <= i < |q| && 0 <= j < |all| ensures q[i].id != all[j].id {
      assert q[i] in q;
      var k :| 0 <= k < |p| && q[i] == Entry(p[k].id, Fresh(p[k].frames, now)) && q[i].frames != [];
      if j < |ts| - d {
        assert all[j] == ts[d + j];
      } else {
        assert all[j] in NewTombs(p, now);
        var m :| 0 <= m < |p| && p[m].id == all[j].id && Fresh(p[m].frames, now) == [];
      }
    }
  }

  lemma {:induction false} TrimUnique(ts: seq<Tombstone>)
    requires UniqueTombs(ts)
    ensures UniqueTombs(Trim(ts))
    decreases |ts|
  {
    if |ts| > MAX_TOMBSTONES { TrimUnique(ts[1..]); }
  }

  lemma {:induction false} BuriedUnique(p: seq<Entry>, ts: seq<Tombstone>, now: Millis)
    requires UniqueTombs(ts)
    ensures UniqueTombs(Buried(p, ts, now))
  {
    hide Fresh, Trim;
    if p != [] {
      BuriedUnique(p[..|p| - 1], ts, now);
      var before, id := Buried(p[..|p| - 1], ts, now), p[|p| - 1].id;
      var i := FindTomb(before, id);
      TrimUnique(if i >= 0 then before[i := Tombstone(id, now)] else before + [Tombstone(id, now)]);
    }
  }

  lemma {:induction false} SweptOk(b: Buffer, now: Millis)
    requires BufferOk(b)
    ensures BufferOk(Swept(b, now))
  {
    hide Fresh, FramesOk, TotalBytes, Apart, UniqueTombs;
    BuriedUnique(b.pending, b.expired, now);
    PrunedFrom(b.pending, now);
    PrunedOk(b.pending, now);
    BuriedShape(b.pending, b.expired, now);
    StillApart(b.pending, b.expired, now);
  }

  lemma {:induction false} UnburyOk(b: Buffer, id: string)
    requires BufferOk(b)
    ensures BufferOk(b.(expired := Unbury(b.expired, id))) && NoTombOf(Unbury(b.expired, id), id)
  {
    hide FramesOk, TotalBytes;
    UnburyGone(b.expired, id);
  }

  /** After the tombstone check of an arrival, its group has no tombstone. */
  lemma {:induction false} UnburyGone(ts: seq<Tombstone>, id: string)
    requires UniqueTombs(ts)
    ensures NoTombOf(Unbury(ts, id), id)
  {
    var i, u := FindTomb(ts, id), Unbury(ts, id);
    forall j | 0 <= j < |u| ensures u[j].id != id {
      if i >= 0 { assert u[j] == if j < i then ts[j] else ts[j + 1]; }
    }
  }

  // ---------------------------------------------------------------------------
  // Queueing

  lemma {:induction false} ExtendedOk(existing: seq<Frame>, a: Arrival, bytes: nat, now: Millis)
    requires a.revision.Some? && |existing| < MAX_PER_GROUP && DistinctKeys(existing) && FindSame(existing, a) < 0
    ensures FramesOk(existing + [NewFrame(a, bytes, now)])
    ensures FrameBytes(existing + [NewFrame(a, bytes, now)]) == FrameBytes(existing) + bytes
  {
    var all := existing + [NewFrame(a, bytes, now)];
    assert all[..|existing|] == existing;
  }

  lemma {:induction false} FramesOfOk(p: seq<Entry>, id: string)
    requires EntriesOk(p)
    ensures DistinctKeys(FramesOf(p, id)) && |FramesOf(p, id)| <= MAX_PER_GROUP
    ensures Find(p, id) >= 0 <==> FramesOf(p, id) != []
  {
    hide SameKey;
  }

  lemma {:induction false} StoreOk(u: Buffer, a: Arrival, bytes: nat, now: Millis)
    requires BufferOk(u) && a.revision.Some? && NoTombOf(u.expired, a.groupId)
    requires FindSame(FramesOf(u.pending, a.groupId), a) < 0 && HasRoom(u, a.groupId, bytes)
    ensures var frames := FramesOf(u.pending, a.groupId) + [NewFrame(a, bytes, now)];
      BufferOk(u.(pending := Put(u.pending, a.groupId, frames), bytes := u.bytes + bytes))
  {
    hide FramesOk, TotalBytes, FrameBytes, Put, FindSame;
    var existing := FramesOf(u.pending, a.groupId);
    FramesOfOk(u.pending, a.groupId);
    ExtendedOk(existing, a, bytes, now);
    PutEffect(u.pending, a.groupId, existing + [NewFrame(a, bytes, now)]);
    ApartPut(u.pending, u.expired, a.groupId, existing + [NewFrame(a, bytes, now)]);
  }

  lemma {:induction false} ApartPut(p: seq<Entry>, ts: seq<Tombstone>, id: string, frames: seq<Frame>)
    requires Apart(p, ts) && NoTombOf(ts, id)
    ensures Apart(Put(p, id, frames), ts)
  {}

  lemma {:induction false} QueueOk(b: Buffer, a: Arrival, now: Millis)
    requires BufferOk(b)
    ensures BufferOk(Queue(b, a, now).0)
  {
    hide BufferOk, Put, FramesOf, HasRoom, ContentBytes, WellFormed, Unbury;
    if WellFormed(a) {
      SweptOk(b, now);
      var s := Swept(b, now);
      if !Entombed(s, a.groupId, now) {
        UnburyOk(s, a.groupId);
        var u := s.(expired := Unbury(s.expired, a.groupId));
        var bytes := ContentBytes(a.content, 0);
        if bytes.Some? && FindSame(FramesOf(u.pending, a.groupId), a) < 0 && HasRoom(u, a.groupId, bytes.value) {
          assert a.revision.Some? by { WellFormedHas(a); }
          StoreOk(u, a, bytes.value, now);
        }
      }
    }
  }

  lemma {:induction false} WellFormedHas(a: Arrival)
    requires WellFormed(a)
    ensures a.revision.Some?
  {}

  // ---------------------------------------------------------------------------
  // Flushing

  lemma {:induction false} RemainingOk(frames: seq<Frame>, revision: int)
    requires FramesOk(frames)
    ensures Filter(frames, Above(revision)) != [] ==> FramesOk(Filter(frames, Above(revision)))
  {
    hide Filter, SameKey;
    FilterKeeps(frames, Above(revision));
    FilterDistinct(frames, Above(revision));
  }

  lemma {:induction false} FlushOk(b: Buffer, id: string, revision: int, throwsAt: Option<nat>)
    requires BufferOk(b)
    ensures BufferOk(Flush(b, id, revision, throwsAt).0)
  {
    hide FramesOk, TotalBytes, FrameBytes, Filter, Put, Without, UniqueTombs;
    var frames := FramesOf(b.pending, id);
    if frames != [] && !Breaks(frames, revision, throwsAt) {
      var remaining := Filter(frames, Above(revision));
      RemainingOk(frames, revision);
      SplitBytes(frames, revision);
      FindIsApart(b, id);
      if remaining != [] {
        PutEffect(b.pending, id, remaining);
        ApartPut(b.pending, b.expired, id, remaining);
      } else {
        WithoutEffect(b.pending, id);
        ApartWithout(b.pending, b.expired, id);
        NoBytes();
      }
    }
  }

  lemma {:induction false} FindIsApart(b: Buffer, id: string)
    requires BufferOk(b) && Find(b.pending, id) >= 0
    ensures NoTombOf(b.expired, id)
  {}

  lemma {:induction false} ApartWithout(p: seq<Entry>, ts: seq<Tombstone>, id: string)
    requires Apart(p, ts)
    ensures Apart(Without(p, id), ts)
  {}

  lemma {:induction false} RunBufferOk(es: seq<Event>)
    ensures BufferOk(Run(es))
  {
    hide BufferOk, Queue, Flush;
    if es == [] {
      EmptyBufferOk();
    } else {
      RunBufferOk(es[..|es| - 1]);
      var b, e := Run(es[..|es| - 1]), es[|es| - 1];
      if e.Arrives? { QueueOk(b, e.a, e.now); } else { FlushOk(b, e.id, e.revision, e.throwsAt); }
    }
  }

  lemma {:induction false} EmptyBufferOk()
    ensures BufferOk(EMPTY)
  {}

  // ---------------------------------------------------------------------------
  // What the buffer promises

  /** In every run the byte counter is the sum over everything held, which is at most
      2 MiB, in at most 8 groups of 1 to 12 frames, and no sender's message id is
      held twice in a group. */
  lemma {:induction false} BufferBounded(es: seq<Event>)
    ensures var b := Run(es);
      && b.bytes == TotalBytes(b.pending) && b.bytes <= 2 * 1024 * 1024
      && |b.pending| <= 8 && (forall i, j :: 0 <= i < j < |b.pending| ==> b.pending[i].id != b.pending[j].id)
      && (forall k :: 0 <= k < |b.pending| ==> 0 < |b.pending[k].frames| <= 12 && DistinctKeys(b.pending[k].frames))
      && |b.expired| <= 16
  {
    hide Run, DistinctKeys, Apart, TotalBytes;
    RunBufferOk(es);
    var b := Run(es);
    forall k | 0 <= k < |b.pending| ensures 0 < |b.pending[k].frames| <= 12 && DistinctKeys(b.pending[k].frames) {
      assert FramesOk(b.pending[k].frames);
    }
  }

  /** How a content is counted; a reply to a reply is never buffered. */
  lemma {:induction false} CountedSizes(text: string, data: Bytes, name: string, mime: string, c: Content)
    ensures ContentBytes(Text(text), 0) == Some(|Utf8.Encode(text)| + 96)
    ensures ContentBytes(File(data, name, mime), 0) == Some(|data| + |Utf8.Encode(name + mime)| + 192)
    ensures ContentBytes(Reply(Text(text)), 0) == Some(|Utf8.Encode(text)| + 352)
    ensures ContentBytes(Reply(File(data, name, mime)), 0) == Some(|data| + |Utf8.Encode(name + mime)| + 448)
    ensures ContentBytes(Reply(Reply(c)), 0) == None
  {
    hide Utf8.Encode;
    assert ContentBytes(c, 2) == None;
    assert ContentBytes(Reply(c), 1) == None;
  }

  /** What memory holds of a content. */
  function Payload(c: Content): Bytes {
    match c
    case Text(text) => Utf8.Encode(text)
    case File(data, name, mime) => data + Utf8.Encode(name) + Utf8.Encode(mime)
    case Reply(inner) => Payload(inner)
    case Other => []
  }

  /** The counted size covers the content itself. */
  lemma {:induction false} PayloadCounted(c: Content, depth: nat)
    ensures ContentBytes(c, depth).Some? ==> |Payload(c)| <= ContentBytes(c, depth).value
    decreases c
  {
    hide Utf8.Encode;
    match c {
      case File(_, name, mime) => Utf8.EncodeConcat(name, mime);
      case Reply(inner) => PayloadCounted(inner, depth + 1);
      case _ =>
    }
  }

  predicate Counted(f: Frame) { |Payload(f.content)| <= f.bytes }

  ghost predicate AllCounted(frames: seq<Frame>) { forall f :: f in frames ==> Counted(f) }

  ghost predicate HeldCounted(p: seq<Entry>) { forall e :: e in p ==> AllCounted(e.frames) }

  lemma {:induction false} FilterCounted(frames: seq<Frame>, keep: Frame -> bool)
    requires AllCounted(frames)
    ensures AllCounted(Filter(frames, keep))
  {
    hide Filter, Counted;
    FilterKeeps(frames, keep);
  }

  lemma {:induction false} PrunedCounted(p: seq<Entry>, now: Millis)
    requires HeldCounted(p)
    ensures HeldCounted(Pruned(p, now))
  {
    hide AllCounted, Filter;
    if p != [] {
      PrunedCounted(p[..|p| - 1], now);
      FilterCounted(p[|p| - 1].frames, Younger(now));
    }
  }

  lemma {:induction false} FramesOfCounted(p: seq<Entry>, id: string)
    requires HeldCounted(p)
    ensures AllCounted(FramesOf(p, id))
  {
    hide Counted;
  }

  lemma {:induction false} PutCounted(p: seq<Entry>, id: string, frames: seq<Frame>)
    requires HeldCounted(p) && AllCounted(frames)
    ensures HeldCounted(Put(p, id, frames)) && HeldCounted(Without(p, id))
  {
    hide AllCounted;
  }

  lemma {:induction false} StepCounted(b: Buffer, e: Event)
    requires HeldCounted(b.pending)
    ensures HeldCounted(Step(b, e).pending)
  {
    hide HeldCounted, Put, Without, FramesOf, HasRoom, ContentBytes, Payload, Pruned, Buried, Unbury, FindSame, Filter;
    if e.Arrives? {
      var p, a := Pruned(b.pending, e.now), e.a;
      PrunedCounted(b.pending, e.now);
      FramesOfCounted(p, a.groupId);
      PayloadCounted(a.content, 0);
      if a.revision.Some? && ContentBytes(a.content, 0).Some? {
        PutCounted(p, a.groupId, FramesOf(p, a.groupId) + [NewFrame(a, ContentBytes(a.content, 0).value, e.now)]);
      }
    } else {
      FramesOfCounted(b.pending, e.id);
      FilterCounted(FramesOf(b.pending, e.id), Above(e.revision));
      PutCounted(b.pending, e.id, Filter(FramesOf(b.pending, e.id), Above(e.revision)));
    }
  }

  lemma {:induction false} RunCounted(es: seq<Event>)
    ensures HeldCounted(Run(es).pending)
  {
    hide Step, AllCounted;
    if es != [] {
      RunCounted(es[..|es| - 1]);
      StepCounted(Run(es[..|es| - 1]), es[|es| - 1]);
    }
  }

  function FramesHeld(frames: seq<Frame>): nat {
    if frames == [] then 0 else FramesHeld(frames[..|frames| - 1]) + |Payload(frames[|frames| - 1].content)|
  }

  /** The bytes of all contents in the buffer. */
  function Held(p: seq<Entry>): nat {
    if p == [] then 0 else Held(p[..|p| - 1]) + FramesHeld(p[|p| - 1].frames)
  }

  lemma {:induction false} FramesHeldCounted(frames: seq<Frame>)
    requires AllCounted(frames)
    ensures FramesHeld(frames) <= FrameBytes(frames)
  {
    hide Payload;
    if frames != [] {
      FramesHeldCounted(frames[..|frames| - 1]);
      assert frames[|frames| - 1] in frames;
    }
  }

  lemma {:induction false} HeldIsCounted(p: seq<Entry>)
    requires HeldCounted(p)
    ensures Held(p) <= TotalBytes(p)
  {
    hide AllCounted, FramesHeld, FrameBytes;
    if p != [] {
      HeldIsCounted(p[..|p| - 1]);
      FramesHeldCounted(p[|p| - 1].frames);
    }
  }

  /** In every run the contents of all frames in the buffer, texts, names and file data,
      together have at most 2 MiB. */
  lemma {:induction false} ContentsBounded(es: seq<Event>)
    ensures Held(Run(es).pending) <= 2 * 1024 * 1024
  {
    hide Run, TotalBytes, Held, HeldCounted;
    RunCounted(es);
    RunBufferOk(es);
    HeldIsCounted(Run(es).pending);
  }

  lemma {:induction false} PrunedFramesOf(p: seq<Entry>, id: string, now: Millis)
    requires UniqueIds(p) && EntriesOk(p)
    ensures FramesOf(Pruned(p, now), id) == Fresh(FramesOf(p, id), now)
  {
    hide Fresh, FramesOk, Pruned;
    PrunedFrom(p, now);
    var i, j, q := Find(p, id), Find(Pruned(p, now), id), Pruned(p, now);
    if j >= 0 {
      var k :| 0 <= k < |p| && q[j] == Entry(p[k].id, Fresh(p[k].frames, now)) && q[j].frames != [];
      FindUnique(p, k);
    } else if i >= 0 {
      assert Fresh(p[i].frames, now) == [];
    } else {
      FreshNothing(now);
    }
  }

  lemma {:induction false} FreshNothing(now: Millis)
    ensures Fresh([], now) == []
  {}

  /** Where a frame of the same sender and message id is still waiting, nothing is
      added: its own relay row stays with the relay, any other copy is a duplicate. */
  lemma {:induction false} RedeliveryRecognised(b: Buffer, a: Arrival, now: Millis, f: Frame)
    requires BufferOk(b) && WellFormed(a)
    requires ContentBytes(a.content, 0).Some? && ContentBytes(a.content, 0).value <= 2 * 1024 * 1024
    requires f in FramesOf(b.pending, a.groupId) && Same(f, a) && now - f.queuedAt <= 120_000
    ensures Queue(b, a, now).1 == if f.ackId == a.ackId then Retained else Duplicate
    ensures Queue(b, a, now).0.pending == Pruned(b.pending, now) && f in FramesOf(Queue(b, a, now).0.pending, a.groupId)
  {
    hide FramesOk, Pruned, Buried, TotalBytes, FramesOf, Filter, ContentBytes, Unbury;
    var existing := FramesOf(Pruned(b.pending, now), a.groupId);
    PrunedFramesOf(b.pending, a.groupId, now);
    FilterKeeps(FramesOf(b.pending, a.groupId), Younger(now));
    assert f in existing;
    SweptOk(b, now);
    var s := Swept(b, now);
    FramesOfOk(s.pending, a.groupId);
    FindIsApart(s, a.groupId);
    assert !Entombed(s, a.groupId, now);
    OnlySame(existing, a, f);
  }

  lemma {:induction false} OnlySame(frames: seq<Frame>, a: Arrival, f: Frame)
    requires DistinctKeys(frames) && f in frames && Same(f, a)
    ensures FindSame(frames, a) >= 0 && frames[FindSame(frames, a)] == f
  {
    var i, j := FindSame(frames, a), 0;
    j :| 0 <= j < |frames| && frames[j] == f;
    assert i >= 0 && SameKey(frames[i], frames[j]);
  }

  lemma {:induction false} NoneFresh(frames: seq<Frame>, now: Millis)
    requires forall f :: f in frames ==> now - f.queuedAt > 120_000
    ensures Fresh(frames, now) == []
  {
    if frames != [] { NoneFresh(frames[..|frames| - 1], now); }
  }

  /** The redelivery that finds its frame expired is rejected, hence acknowledged, and
      its group gets no second waiting period. */
  lemma {:induction false} ExpiredIsRejected(b: Buffer, a: Arrival, now: Millis)
    requires BufferOk(b) && WellFormed(a) && Find(b.pending, a.groupId) >= 0
    requires forall f :: f in FramesOf(b.pending, a.groupId) ==> now - f.queuedAt > 120_000
    ensures Queue(b, a, now).1 == Reject && Find(Queue(b, a, now).0.pending, a.groupId) < 0
  {
    hide FramesOk, Pruned, Buried, TotalBytes, Filter, ContentBytes, Unbury;
    var frames := FramesOf(b.pending, a.groupId);
    NoneFresh(frames, now);
    SweptOk(b, now);
    var s := Swept(b, now);
    PrunedFramesOf(b.pending, a.groupId, now);
    FramesOfOk(s.pending, a.groupId);
    BuriedShape(b.pending, b.expired, now);
    NewTombsFrom(b.pending, now);
    var d :| 0 <= d <= |b.expired| && s.expired == b.expired[d..] + NewTombs(b.pending, now);
    TombIsNew(s.expired, b, d, a.groupId, now);
  }

  lemma {:induction false} TombIsNew(ts: seq<Tombstone>, b: Buffer, d: nat, id: string, now: Millis)
    requires BufferOk(b) && Find(b.pending, id) >= 0 && Fresh(FramesOf(b.pending, id), now) == []
    requires d <= |b.expired| && ts == b.expired[d..] + NewTombs(b.pending, now)
    ensures FindTomb(ts, id) >= 0 && ts[FindTomb(ts, id)].at == now
  {
    hide FramesOk, TotalBytes, Fresh;
    NewTombsFrom(b.pending, now);
    FindIsApart(b, id);
    var n := NewTombs(b.pending, now);
    assert Tombstone(id, now) in n;
    var k :| 0 <= k < |n| && n[k] == Tombstone(id, now);
    assert ts[|b.expired| - d + k] == n[k] && ts[|b.expired| - d + k] in ts;
    forall m | 0 <= m < |b.expired| - d ensures ts[m].id != id { assert ts[m] == b.expired[d + m]; }
    var i := FindTomb(ts, id);
    assert ts[i] == n[i - (|b.expired| - d)] && ts[i] in n;
  }

  /** A queued arrival is appended to its group; no other group changes, apart from
      expiry. */
  lemma {:induction false} QueuedAppends(b: Buffer, a: Arrival, now: Millis, g: string)
    requires BufferOk(b) && Queue(b, a, now).1 == Queued
    ensures a.revision.Some? && ContentBytes(a.content, 0).Some?
    ensures FramesOf(Queue(b, a, now).0.pending, g) == Fresh(FramesOf(b.pending, g), now) +
      if g == a.groupId then [NewFrame(a, ContentBytes(a.content, 0).value, now)] else []
  {
    hide FramesOk, Pruned, Buried, TotalBytes, FramesOf, Fresh, ContentBytes, Put, HasRoom, Unbury;
    SweptOk(b, now);
    var s := Swept(b, now);
    PrunedFramesOf(b.pending, g, now);
    PrunedFramesOf(b.pending, a.groupId, now);
    PutFramesOf(s.pending, a.groupId, FramesOf(s.pending, a.groupId) + [NewFrame(a, ContentBytes(a.content, 0).value, now)], g);
  }

  /** A frame without a revision of at least 1, a state hash of 32 bytes and a message id
      is rejected, whatever else, and changes nothing. */
  lemma {:induction false} IllFormedRejected(b: Buffer, a: Arrival, now: Millis)
    requires a.revision.None? || a.revision.value < 1 || !a.hashOk || a.mid == ""
    ensures Queue(b, a, now) == (b, Reject)
  {}

  lemma {:induction false} NoBurial(p: seq<Entry>, ts: seq<Tombstone>, now: Millis)
    requires forall k :: 0 <= k < |p| ==> Fresh(p[k].frames, now) != []
    ensures Buried(p, ts, now) == ts
  {
    hide Fresh, Bury;
    if p != [] { NoBurial(p[..|p| - 1], ts, now); }
  }

  /** Within two minutes of its expiry a group gets no second waiting period, at least
      while no other group expires, which could push its tombstone out. */
  lemma {:induction false} TombstoneRejects(b: Buffer, a: Arrival, now: Millis, t: Tombstone)
    requires BufferOk(b) && t in b.expired && t.id == a.groupId && now - t.at <= 120_000
    requires forall k :: 0 <= k < |b.pending| ==> Fresh(b.pending[k].frames, now) != []
    ensures Queue(b, a, now).1 == Reject && Queue(b, a, now).0.expired == b.expired
  {
    hide Fresh, Pruned, Buried, TotalBytes, FramesOk, ContentBytes;
    NoBurial(b.pending, b.expired, now);
    var i := FindTomb(b.expired, a.groupId);
    var j :| 0 <= j < |b.expired| && b.expired[j] == t;
    assert i == j;
  }

  /** No tombstone of the group is younger than two minutes, and the group has not just
      run out of frames. */
  predicate MayWait(b: Buffer, id: string, now: Millis) {
    && (forall t :: t in b.expired && t.id == id ==> now - t.at > 120_000)
    && (Find(b.pending, id) >= 0 ==> Fresh(FramesOf(b.pending, id), now) != [])
  }

  /** With room for it a frame is admitted: its content counts for at most 2 MiB with
      everything still waiting, its group has fewer than 12 frames waiting and is one of at
      most 8, and no copy of it is waiting. */
  lemma {:induction false} AdmittedWithRoom(b: Buffer, a: Arrival, now: Millis)
    requires BufferOk(b) && a.revision.Some? && a.revision.value >= 1 && a.hashOk && a.mid != ""
    requires MayWait(b, a.groupId, now) && ContentBytes(a.content, 0).Some?
    requires TotalBytes(Pruned(b.pending, now)) + ContentBytes(a.content, 0).value <= 2 * 1024 * 1024
    requires |Fresh(FramesOf(b.pending, a.groupId), now)| < 12
    requires Find(b.pending, a.groupId) < 0 ==> |Pruned(b.pending, now)| < 8
    requires forall f :: f in FramesOf(b.pending, a.groupId) && now - f.queuedAt <= 120_000 ==> !Same(f, a)
    ensures Queue(b, a, now).1 == Queued
  {
    hide FramesOk, Pruned, Buried, TotalBytes, Filter, ContentBytes, Unbury;
    var s := Swept(b, now);
    SweptOk(b, now);
    PrunedFramesOf(b.pending, a.groupId, now);
    FramesOfOk(s.pending, a.groupId);
    FramesOfOk(b.pending, a.groupId);
    FilterKeeps(FramesOf(b.pending, a.groupId), Younger(now));
    NotEntombed(b, a.groupId, now);
    NoCopy(FramesOf(s.pending, a.groupId), a);
  }

  lemma {:induction false} NoCopy(frames: seq<Frame>, a: Arrival)
    requires forall f :: f in frames ==> !Same(f, a)
    ensures FindSame(frames, a) < 0
  {}

  lemma {:induction false} NotEntombed(b: Buffer, id: string, now: Millis)
    requires BufferOk(b) && MayWait(b, id, now)
    ensures !Entombed(Swept(b, now), id, now)
  {
    hide FramesOk, Pruned, Buried, TotalBytes, Filter;
    var ts := Swept(b, now).expired;
    BuriedShape(b.pending, b.expired, now);
    NewTombsFrom(b.pending, now);
    var d :| 0 <= d <= |b.expired| && ts == b.expired[d..] + NewTombs(b.pending, now);
    var i := FindTomb(ts, id);
    if i >= |b.expired| - d {
      assert ts[i] in NewTombs(b.pending, now);
      var k :| 0 <= k < |b.pending| && b.pending[k].id == id && Fresh(b.pending[k].frames, now) == [];
      FindUnique(b.pending, k);
    } else if i >= 0 {
      assert ts[i] == b.expired[d + i];
    }
  }

  lemma {:induction false} PutFramesOf(p: seq<Entry>, id: string, frames: seq<Frame>, g: string)
    requires UniqueIds(p)
    ensures FramesOf(Put(p, id, frames), g) == if g == id then frames else FramesOf(p, g)
  {
    var q := Put(p, id, frames);
    forall i, j | 0 <= i < j < |q| ensures q[i].id != q[j].id {
      if Find(p, id) < 0 && j == |p| { assert q[i] in p; }
    }
    var k := if g == id then if Find(p, id) >= 0 then Find(p, id) else |p| else Find(p, g);
    if k >= 0 {
      assert q[k].id == g;
      FindUnique(q, k);
    } else {
      FindAbsent(q, p, id, g);
    }
  }

  lemma {:induction false} FindAbsent(q: seq<Entry>, p: seq<Entry>, id: string, g: string)
    requires Find(p, g) < 0 && g != id && forall i :: 0 <= i < |q| ==> q[i].id == id || q[i] in p
    ensures Find(q, g) < 0
  {
    forall i | 0 <= i < |q| ensures q[i].id != g { assert q[i].id == id || q[i] in p; }
  }

  /** A flush that is interrupted leaves the buffer as it was, having delivered a prefix
      of what a flush that completes delivers: the next one starts again from the first
      frame and loses none. */
  lemma {:induction false} InterruptedFlush(b: Buffer, id: string, revision: int, throwsAt: Option<nat>)
    requires Breaks(FramesOf(b.pending, id), revision, throwsAt)
    ensures var (s, delivered) := Flush(b, id, revision, throwsAt);
      s == b && delivered < Flush(b, id, revision, None).1
  {
    FilterPrefix(FramesOf(b.pending, id), UpTo(revision), throwsAt.value);
  }

  lemma {:induction false} FilterPrefix(frames: seq<Frame>, keep: Frame -> bool, n: nat)
    requires n < |frames| && keep(frames[n])
    ensures Filter(frames[..n], keep) < Filter(frames, keep)
    decreases |frames|
  {
    if n < |frames| - 1 {
      FilterPrefix(frames[..|frames| - 1], keep, n);
      assert frames[..|frames| - 1][..n] == frames[..n];
    }
  }

  /** A flush that completes delivers exactly the frames up to the installed revision,
      keeps exactly those above it, in order, and touches no other group. */
  lemma {:induction false} FlushExact(b: Buffer, id: string, revision: int, throwsAt: Option<nat>, g: string)
    requires BufferOk(b) && !Breaks(FramesOf(b.pending, id), revision, throwsAt)
    ensures var (s, delivered) := Flush(b, id, revision, throwsAt);
      && FramesOf(s.pending, g) == (if g == id then Filter(FramesOf(b.pending, id), Above(revision)) else FramesOf(b.pending, g))
      && (forall f :: f in delivered <==> f in FramesOf(b.pending, id) && f.revision <= revision)
      && (forall f :: f in FramesOf(s.pending, id) <==> f in FramesOf(b.pending, id) && f.revision > revision)
  {
    hide FramesOk, TotalBytes, FrameBytes, FramesOf, Put, Without;
    var frames := FramesOf(b.pending, id);
    FilterKeeps(frames, Above(revision));
    FilterKeeps(frames, UpTo(revision));
    var remaining := Filter(frames, Above(revision));
    if frames != [] {
      if remaining != [] {
        PutFramesOf(b.pending, id, remaining, g);
        PutFramesOf(b.pending, id, remaining, id);
      } else {
        WithoutFramesOf(b.pending, id, g);
        WithoutFramesOf(b.pending, id, id);
      }
    }
  }

  lemma {:induction false} WithoutFramesOf(p: seq<Entry>, id: string, g: string)
    requires UniqueIds(p) && EntriesOk(p) && FramesOf(p, id) != []
    ensures FramesOf(Without(p, id), g) == if g == id then [] else FramesOf(p, g)
  {
    hide FramesOk;
    WithoutEffect(p, id);
    var q := Without(p, id);
    if g != id && Find(p, g) >= 0 {
      assert p[Find(p, g)] in q;
      var k :| 0 <= k < |q| && q[k] == p[Find(p, g)];
      FindUnique(q, k);
    } else {
      forall i | 0 <= i < |q| ensures q[i].id != g { assert q[i] in q; }
    }
  }

  // ---------------------------------------------------------------------------
  // The buffer in place

  class TransitionBuffer {
    var pending: seq<Entry>
    var bytes: int
    var expired: seq<Tombstone>

    function State(): Buffer
      reads this
    {
      Buffer(pending, bytes, expired)
    }

    ghost predicate Valid()
      reads this
    {
      BufferOk(State())
    }

    constructor ()
      ensures Valid() && State() == EMPTY
    {
      pending, bytes, expired := [], 0, [];
      new;
      EmptyBufferOk();
    }

    method Entomb(id: string, now: Millis)
      modifies this`expired
      ensures expired == Bury(old(expired), id, now)
    {
      var k := FindTomb(expired, id);
      expired := if k >= 0 then expired[k := Tombstone(id, now)] else expired + [Tombstone(id, now)];
      while |expired| > MAX_TOMBSTONES
        invariant Trim(expired) == Bury(old(expired), id, now)
      {
        expired := expired[1..];
      }
    }

    method Prune(now: Millis)
      modifies this
      ensures State() == Swept(old(State()), now)
    {
      hide Fresh, Pruned, Buried, Bury, TotalBytes, FrameBytes;
      var groups, totalBytes := pending, 0;
      pending := [];
      NothingPruned(expired, now);
      for i := 0 to |groups|
        invariant pending == Pruned(groups[..i], now)
        invariant totalBytes == TotalBytes(pending)
        invariant expired == Buried(groups[..i], old(expired), now)
      {
        var id, young := groups[i].id, Fresh(groups[i].frames, now);
        assert groups[..i + 1] == groups[..i] + [groups[i]];
        PrunedStep(groups[..i], groups[i], now);
        BuriedStep(groups[..i], groups[i], old(expired), now);
        TotalStep(pending, Entry(id, young));
        if |young| > 0 {
          pending := pending + [Entry(id, young)];
          totalBytes := totalBytes + FrameBytes(young);
        } else {
          Entomb(id, now);
        }
      }
      assert groups[..|groups|] == groups;
      bytes := totalBytes;
    }

    method QueueFrame(a: Arrival, now: Millis) returns (outcome: Outcome)
      requires Valid()
      modifies this
      ensures Valid() && (State(), outcome) == Queue(old(State()), a, now)
    {
      hide Pruned, Buried, Fresh, FrameBytes, TotalBytes, BufferOk;
      QueueOk(State(), a, now);
      if !WellFormed(a) { return Reject; }
      Prune(now);
      var k := FindTomb(expired, a.groupId);
      if k >= 0 && now - expired[k].at <= TTL_MS { return Reject; }
      if k >= 0 { expired := expired[..k] + expired[k + 1..]; }
      var size := ContentBytes(a.content, 0);
      if size.None? || size.value > MAX_BYTES { return Reject; }
      var existing := FramesOf(pending, a.groupId);
      var same := FindSame(existing, a);
      if same >= 0 { return if existing[same].ackId == a.ackId then Retained else Duplicate; }
      if |existing| >= MAX_PER_GROUP || bytes + size.value > MAX_BYTES
         || (Find(pending, a.groupId) < 0 && |pending| >= MAX_IDS) {
        return Reject;
      }
      pending := Put(pending, a.groupId, existing + [NewFrame(a, size.value, now)]);
      bytes := bytes + size.value;
      return Queued;
    }

    /** `throwsAt` is the frame whose delivery fails, if one does. */
    method FlushFrames(id: string, revision: int, throwsAt: Option<nat>) returns (delivered: seq<Frame>)
      requires Valid()
      modifies this
      ensures Valid() && (State(), delivered) == Flush(old(State()), id, revision, throwsAt)
    {
      hide FrameBytes, TotalBytes, BufferOk, FramesOf, Put, Without;
      FlushOk(State(), id, revision, throwsAt);
      var frames := FramesOf(pending, id);
      delivered := [];
      for i := 0 to |frames|
        invariant delivered == Filter(frames[..i], UpTo(revision))
        invariant Breaks(frames, revision, throwsAt) ==> i <= throwsAt.value
        invariant unchanged(this)
      {
        assert frames[..i + 1][..i] == frames[..i];
        if frames[i].revision > revision { continue; }
        if throwsAt == Some(i) { return; }
        delivered := delivered + [frames[i]];
      }
      assert frames[..|frames|] == frames;
      if |frames| == 0 { return; }
      var remaining := Filter(frames, Above(revision));
      bytes := bytes - FrameBytes(Filter(frames, UpTo(revision)));
      pending := if remaining != [] then Put(pending, id, remaining) else Without(pending, id);
    }
  }
}
