/** What holds in every reachable state of the upload system: coordinator,
    workers, cleanup tasks, lost and late calls, expiry, lifecycle deletion and
    the bucket scan, in any interleaving. */
module UploadTheorems {
  import opened Sums
  import opened QuotaModel
  import opened QuotaInvariants
  import opened QuotaProtocol
  import opened UploadWorld
  import opened UploadSafety

  /** Every object the uploads have put into the bucket is charged to the actor
      that uploaded it, with its real size. */
  lemma EveryObjectCovered(bucket: map<Key, Obj>, clock: int, steps: seq<Step>, k: Key)
    requires var w := Reach(bucket, clock, steps); k in w.bucket && k !in w.start
    ensures var w := Reach(bucket, clock, steps); var o := w.bucket[k];
      || (k in w.q.rows && w.q.rows[k].actor == o.actor && w.q.rows[k].bytes == o.size)
      || (k in w.q.ledger && w.q.ledger[k].actor == o.actor && w.q.ledger[k].bytes == o.size)
  {
    hide Reach;
    Reached(bucket, clock, steps);
    CoveredObject(Reach(bucket, clock, steps), k);
  }

  lemma CoveredObject(w: World, k: Key)
    requires Shared(w) && k in w.bucket && k !in w.start
    ensures var o := w.bucket[k];
      || (k in w.q.rows && w.q.rows[k].actor == o.actor && w.q.rows[k].bytes == o.size)
      || (k in w.q.ledger && w.q.ledger[k].actor == o.actor && w.q.ledger[k].bytes == o.size)
  {
    hide QInv, OpenOk, CreatingOk;
  }

  lemma {:induction false} StartIsBucket(w: World, steps: seq<Step>)
    ensures RunFrom(w, steps).start == w.start
    decreases |steps|
  {
    if steps != [] {
      hide Next;
      StartStays(w, steps[0]);
      StartIsBucket(Next(w, steps[0]), steps[1..]);
    }
  }

  /** What no await of a task ever changes: the record of the first bucket, the
      reservations ever granted, and the clock. */
  function Fixed(w: World): (map<Key, Obj>, map<Key, nat>, int) { (w.start, w.granted, w.clock) }

  lemma {:induction false} MovesKeepFixed()
    ensures forall w, pid, p :: Fixed(At(w, pid, p)) == Fixed(w)
    ensures forall w, pid :: Fixed(Ends(w, pid)) == Fixed(w)
    ensures forall w, s :: Fixed(Lost(w, s)) == Fixed(w)
    ensures forall w, c :: Fixed(CallQuota(w, c)) == Fixed(w)
    ensures forall w, k, u :: Fixed(Abort(w, k, u)) == Fixed(w)
    ensures forall w, k :: Fixed(Delete(w, k)) == Fixed(w)
    ensures forall w, k, u, n, size :: Fixed(PutPart(w, k, u, n, size)) == Fixed(w)
    ensures forall w, k, u, nums :: Fixed(Complete(w, k, u, nums)) == Fixed(w)
  {
    hide Do, Assembled;
  }

  lemma {:induction false} AdvanceFixed(w: World, pid: nat, p: Proc, heard: bool)
    ensures Fixed(Advance(w, pid, p, heard)) == Fixed(w)
  {
    hide At, Ends, Lost, CallQuota, Abort, Delete, PutPart, Complete, Answer, Assembled, IsOpen, CanComplete, Fixed;
    MovesKeepFixed();
  }

  lemma {:induction false} LandFixed(w: World, s: Sent)
    ensures Fixed(Land(w, s)) == Fixed(w)
  {
    hide CallQuota, Abort, Delete, PutPart, Complete, Fixed;
    MovesKeepFixed();
  }

  lemma HandlersStart(w: World, s: Step)
    ensures s.PartRequest? ==> StartPart(w, s).start == w.start
    ensures s.CompleteRequest? ==> StartComplete(w, s).start == w.start
    ensures s.AbortRequest? ==> StartAbort(w, s).start == w.start
  {
    hide At, Lost, CallQuota, Answer;
    MovesKeepFixed();
  }

  lemma CreateStart(w: World, s: Step)
    ensures s.Create? ==> StartCreate(w, s).start == w.start
    ensures s.ReserveReturns? ==> ReturnReserve(w, s.pid, s.asOf).start == w.start
  {
    hide Do;
  }

  lemma OthersKeepStart(w: World, s: Step)
    ensures s.ReserveLands? && s.key in w.creating && s.key in w.made ==> Grant(w, s.key, s.asOf).start == w.start
    ensures s.ScanReads? && s.pid in w.procs && w.procs[s.pid].Scanning? && IsPage(w.bucket, w.procs[s.pid].cursor, s.page, s.to)
            ==> ScanOne(w, s.pid, w.procs[s.pid], s.page, s.to).start == w.start
  {
    hide Do;
  }

  /** The record of the first bucket is never rewritten. */
  lemma StartStays(w: World, s: Step)
    ensures Next(w, s).start == w.start
  {
    hide At, Ends, CallQuota, Delete, Abort, Grant, Advance, Land, StartCreate, StartPart, StartComplete, StartAbort,
         ReturnReserve, ScanOver, IsPage, ScanOne;
    MovesKeepFixed();
    OthersKeepStart(w, s);
    HandlersStart(w, s);
    CreateStart(w, s);
    if s.Act? && s.pid in w.procs { AdvanceFixed(w, s.pid, w.procs[s.pid], s.heard); }
    if s.LandLate? { LandFixed(w, s.sent); }
  }

  /** The objects one actor has uploaded and R2 still stores. */
  function StoredBy(w: World, actor: string): map<Key, nat> {
    map k | k in w.bucket && k !in w.start && w.bucket[k].actor == actor :: w.bucket[k].size
  }

  /** One actor's real bytes and objects in R2 never exceed the actor limits. */
  lemma ActorWithinBudget(bucket: map<Key, Obj>, clock: int, steps: seq<Step>, actor: string)
    ensures var w := Reach(bucket, clock, steps);
      Sum(StoredBy(w, actor)) <= ACTOR_BUDGET && |StoredBy(w, actor)| <= MAX_ACTOR_OBJECTS
  {
    hide Reach, Sum, ActorOk, PartsOk, StoredBy, LedgerBytesOf, RowBytesOf;
    var w := Reach(bucket, clock, steps);
    Reached(bucket, clock, steps);
    StoredWithinCharges(w, actor);
    var l, r := LedgerBytesOf(w.q.ledger, actor), RowBytesOf(w.q.rows, actor);
    SumBelow(StoredBy(w, actor), l + r);
    SumUnion(l, r);
    assert ActorOk(w.q, actor);
    ActorBounds(w.q, actor);
  }

  lemma ActorBounds(q: Quota, a: string)
    requires ActorOk(q, a)
    ensures |LedgerBytesOf(q.ledger, a)| + |RowBytesOf(q.rows, a)| <= MAX_ACTOR_OBJECTS
    ensures Sum(LedgerBytesOf(q.ledger, a)) + Sum(RowBytesOf(q.rows, a)) <= ACTOR_BUDGET
  {}

  lemma StoredWithinCharges(w: World, actor: string)
    requires Shared(w)
    ensures Below(StoredBy(w, actor), LedgerBytesOf(w.q.ledger, actor) + RowBytesOf(w.q.rows, actor))
  {
    hide Shared, Sum;
    var l, r := LedgerBytesOf(w.q.ledger, actor), RowBytesOf(w.q.rows, actor);
    forall k | k in StoredBy(w, actor) ensures k in l + r && StoredBy(w, actor)[k] <= (l + r)[k] {
      CoveredObject(w, k);
      if k in w.q.rows { RowSize(w, k); }
    }
  }

  lemma RowSize(w: World, k: Key)
    requires Shared(w) && k in w.q.rows && k in w.bucket
    ensures w.q.rows[k].bytes == w.bucket[k].size && w.q.rows[k].actor == w.bucket[k].actor
  {
    hide QInv, OpenOk, CreatingOk, CoveredIn, LedgerMatches;
  }

  /** Everything R2 really stores is within what is charged or unreserved. */
  lemma BucketWithinExposure(w: World)
    requires Shared(w)
    ensures Sum(Sizes(w.bucket)) <= Exposure(w)
    ensures |w.bucket| <= |Unreserved(w.bucket, w.q.rows)| + |w.q.rows|
  {
    hide Shared, Sum;
    var u, r := Unreserved(w.bucket, w.q.rows), RowBytes(w.q.rows);
    forall k | k in w.bucket ensures k in u + r && Sizes(w.bucket)[k] <= (u + r)[k] {
      if k in w.q.rows { RowSize(w, k); }
    }
    SumBelow(Sizes(w.bucket), u + r);
    SumUnion(u, r);
    assert |Sizes(w.bucket)| == |w.bucket| by { assert Sizes(w.bucket).Keys == w.bucket.Keys; }
    assert |r| == |w.q.rows| by { assert r.Keys == w.q.rows.Keys; }
  }

  /** The bucket's real bytes never exceed the storage budget, unless the bucket
      was already above it before the first step; then they never grow past that. */
  lemma StorageWithinBudget(bucket: map<Key, Obj>, clock: int, steps: seq<Step>)
    ensures var total := Sum(Sizes(Reach(bucket, clock, steps).bucket));
      total <= STORAGE_BUDGET || total <= Sum(Sizes(bucket))
  {
    hide Reach, Sum, Shared, Sizes, Counted;
    var w := Reach(bucket, clock, steps);
    Reached(bucket, clock, steps);
    BucketWithinExposure(w);
    assert w.start == bucket by { ReachStart(bucket, clock, steps); }
  }

  lemma ReachStart(bucket: map<Key, Obj>, clock: int, steps: seq<Step>)
    ensures Reach(bucket, clock, steps).start == bucket
  {
    StartIsBucket(Initial(bucket, clock), steps);
  }

  /** The counters an applied scan leaves never undercount: in every later state
      they cover the real bucket, or they stand above a ceiling and no reserve
      is granted until the next scan. */
  lemma ScanNeverUndercounts(bucket: map<Key, Obj>, clock: int, steps: seq<Step>, c: Call, now: int)
    requires c.Reserve?
    ensures var w := Reach(bucket, clock, steps);
      w.q.baseline ==>
        || (w.q.completedBytes + Sum(RowBytes(w.q.rows)) >= Sum(Sizes(w.bucket))
            && w.q.completedObjects + |w.q.rows| >= |w.bucket|)
        || (AboveCeiling(w.q) && !Do(w.q, c, now).1.Reserved?)
    ensures var w := Reach(bucket, clock, steps); !w.q.baseline ==> !Do(w.q, c, now).1.Reserved?
  {
    hide Reach, Sum, Shared, Sizes, Do, Unreserved, RowBytes;
    var w := Reach(bucket, clock, steps);
    Reached(bucket, clock, steps);
    BucketWithinExposure(w);
    if AboveCeiling(w.q) || !w.q.baseline { RefusedAboveCeiling(w.q, c, now); }
  }

  lemma RefusedAboveCeiling(q: Quota, c: Call, now: int)
    requires c.Reserve? && (AboveCeiling(q) || !q.baseline)
    ensures !Do(q, c, now).1.Reserved?
  {
    hide Sum, ActorRoom, Unsettled;
  }

  /** Wherever a task is about to release a reservation, or a release is still on
      its way, the upload is closed and the object is gone. */
  lemma ReleaseOnlyWhenGone(bucket: map<Key, Obj>, clock: int, steps: seq<Step>)
    ensures var w := Reach(bucket, clock, steps);
      && (forall pid :: pid in w.procs && (w.procs[pid].ReleaseAborted? || w.procs[pid].ReleaseDeleted? || w.procs[pid].CleanFinish?)
            ==> Gone(w, w.procs[pid].key))
      && (forall k, u, t :: ToQuota(Call.Release(k, u, t)) in w.late ==> Gone(w, k))
  {
    hide Reach, Shared, Budget;
    var w := Reach(bucket, clock, steps);
    Reached(bucket, clock, steps);
    forall pid | pid in w.procs && (w.procs[pid].ReleaseAborted? || w.procs[pid].ReleaseDeleted? || w.procs[pid].CleanFinish?)
      ensures Gone(w, w.procs[pid].key)
    {
      assert ProcOk(w, w.procs[pid]);
    }
    forall k, u, t | ToQuota(Call.Release(k, u, t)) in w.late ensures Gone(w, k) {
      assert SentOk(w, ToQuota(Call.Release(k, u, t)));
    }
  }

  /** A size mismatch after a successful `complete` never arises: R2 assembles
      exactly the reserved bytes. */
  lemma AssembledSizeIsReserved(bucket: map<Key, Obj>, clock: int, steps: seq<Step>, pid: nat)
    requires var w := Reach(bucket, clock, steps); pid in w.procs && w.procs[pid].CompleteUpload?
    requires var w := Reach(bucket, clock, steps); var p := w.procs[pid]; CanComplete(w, p.key, p.uploadId, p.numbers)
    ensures var w := Reach(bucket, clock, steps); var p := w.procs[pid];
      Assembled(w.open[p.key], p.numbers).size == p.bytes
  {
    hide Reach, Shared, Budget, Assembled, CanComplete, SentOk;
    var w := Reach(bucket, clock, steps);
    Reached(bucket, clock, steps);
    CompleteHeard(w, pid, w.procs[pid]);
  }

  /** A 204 is only ever answered while the ledger holds the exact receipt, for an
      object that was really stored with that size. */
  lemma NoContentMeansReceipt(bucket: map<Key, Obj>, clock: int, steps: seq<Step>, pid: nat)
    requires var w := Reach(bucket, clock, steps); pid in w.procs && w.procs[pid].Committing?
    ensures var w := Reach(bucket, clock, steps); var w' := Next(w, Act(pid, true));
      pid in w'.procs && w'.procs[pid].NoContent? ==>
        var p := w'.procs[pid];
        && ExactReceipt(w'.q, p.key, p.uploadId, p.token, p.op, p.size)
        && p.key in w'.born && w'.born[p.key].size == p.size
  {
    hide Reach, Shared, Budget, SentOk;
    var w := Reach(bucket, clock, steps);
    Reached(bucket, clock, steps);
    CommittedReceipt(w, pid);
  }

  lemma CommittedReceipt(w: World, pid: nat)
    requires Inv(w) && pid in w.procs && w.procs[pid].Committing?
    ensures var w' := Next(w, Act(pid, true));
      pid in w'.procs && w'.procs[pid].NoContent? ==>
        var p := w'.procs[pid];
        && ExactReceipt(w'.q, p.key, p.uploadId, p.token, p.op, p.size)
        && p.key in w'.born && w'.born[p.key].size == p.size
  {
    hide Inv, QInv, Do, ProcOk;
    var p := w.procs[pid];
    var c := Call.Commit(p.key, p.uploadId, p.token, p.op, p.size);
    NextKeeps(w, Act(pid, true));
    if Answer(w, c).Accepted? {
      PartsOfReached(w);
      AcceptedValid(w.q, c, w.clock);
      CommitAcceptedExactly(w.q, p.key, p.uploadId, p.token, p.op, p.size, w.clock);
      ReceiptOfStored(Next(w, Act(pid, true)), p.key);
    }
  }

  lemma PartsOfReached(w: World)
    requires Inv(w)
    ensures PartsOk(w.q)
  {
    hide Budget, TasksOk, StoreOk, OpenOk, CoveredIn;
  }

  lemma ReceiptOfStored(w: World, k: Key)
    requires Inv(w) && k in w.q.ledger
    ensures k in w.born && w.born[k].size == w.q.ledger[k].bytes
  {
    hide QInv, Budget, TasksOk, StoreOk, OpenOk, CoveredIn;
  }

  lemma AcceptedValid(q: Quota, c: Call, now: int)
    requires c.Commit? && Do(q, c, now).1.Accepted?
    ensures ValidCall(c)
  {}
}
