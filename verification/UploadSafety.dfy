/** The inductive invariant of the upload system and what follows from it. */
module UploadSafety {
  import opened Sums
  import opened QuotaModel
  import opened QuotaInvariants
  import opened QuotaProtocol
  import opened BlobLength
  import opened UploadWorld

  // ---------------------------------------------------------------------------
  // The shared state

  /** Uploads and objects: an object never reappears once its upload is closed. */
  ghost predicate StoreOk(w: World) {
    && (forall k :: k in w.open ==> k in w.made && w.open[k].uploadId == w.made[k].uploadId && w.open[k].actor == w.made[k].actor)
    && (forall k :: k in w.born ==> k !in w.open)
    && (forall k :: k in w.start ==> k in w.born && k !in w.made)
    && (forall k :: k in w.born && k !in w.start ==>
          k in w.granted && k in w.made && w.born[k].size == w.granted[k] && w.born[k].actor == w.made[k].actor)
    && (forall k :: k in w.bucket ==> k in w.born && w.bucket[k] == w.born[k])
    && (forall k :: k in w.granted ==> k in w.made)
  }

  ghost predicate CreatingOk(w: World) {
    forall k :: k in w.creating ==> k in w.made && k !in w.granted && w.creating[k].size >= 1
  }

  ghost predicate RowsMatch(w: World) {
    forall k :: k in w.q.rows ==>
      && k in w.granted && k in w.made
      && w.q.rows[k].bytes == w.granted[k]
      && w.q.rows[k].uploadId == w.made[k].uploadId
      && w.q.rows[k].actor == w.made[k].actor
  }

  ghost predicate LedgerMatches(w: World) {
    forall k :: k in w.q.ledger ==>
      && k in w.born && k !in w.start && k !in w.q.rows
      && w.q.ledger[k].bytes == w.born[k].size
      && w.q.ledger[k].actor == w.born[k].actor
  }

  /** A granted upload that is still open has its row, and R2 holds only parts
      the row has on record; an upload never granted has no parts at all. */
  ghost predicate OpenOk(w: World) {
    forall k :: k in w.open ==>
      if k in w.granted
      then k in w.q.rows && forall n :: n in w.open[k].parts ==> n in PartsOf(w.q, k) && PartsOf(w.q, k)[n] == w.open[k].parts[n]
      else w.open[k].parts == map[]
  }

  ghost predicate CoveredIn(w: World) {
    forall k :: k in w.bucket && k !in w.start ==> k in w.q.rows || k in w.q.ledger
  }

  ghost predicate Shared(w: World) {
    && QInv(w.q) && StoreOk(w) && CreatingOk(w) && RowsMatch(w) && LedgerMatches(w) && OpenOk(w) && CoveredIn(w)
  }

  // ---------------------------------------------------------------------------
  // The byte budget

  function Sizes(b: map<Key, Obj>): map<Key, nat> { map k | k in b :: b[k].size }

  /** Stored objects that no reservation accounts for. */
  function Unreserved(bucket: map<Key, Obj>, rows: map<Key, Row>): map<Key, nat> {
    map k | k in bucket && k !in rows :: bucket[k].size
  }

  predicate AboveCeiling(q: Quota) { q.completedBytes > STORAGE_BUDGET || q.completedObjects > MAX_GLOBAL_OBJECTS }

  /** The counters never undercount: they cover every stored object without a
      reservation, or they stand above a ceiling and nothing can be reserved. */
  ghost predicate Counted(w: World) {
    w.q.baseline ==> AboveCeiling(w.q)
                     || (Sum(Unreserved(w.bucket, w.q.rows)) <= w.q.completedBytes && |Unreserved(w.bucket, w.q.rows)| <= w.q.completedObjects)
  }

  /** What may be stored: everything stored outside reservations, plus everything
      reservations still allow. */
  ghost function Exposure(w: World): nat { Sum(Unreserved(w.bucket, w.q.rows)) + Sum(RowBytes(w.q.rows)) }

  ghost function Limit(w: World): nat {
    if Sum(Sizes(w.start)) > STORAGE_BUDGET then Sum(Sizes(w.start)) else STORAGE_BUDGET
  }

  ghost predicate Budget(w: World) { Counted(w) && Exposure(w) <= Limit(w) }

  // ---------------------------------------------------------------------------
  // What a task knows while it waits

  predicate Gone(w: World, k: Key) { k in w.made && k !in w.open && k !in w.bucket }

  predicate Stored(w: World, k: Key) { k in w.granted && k in w.born }

  ghost predicate PartNoted(w: World, k: Key, u: string, n: int, size: nat) {
    && k in w.granted && k in w.made && w.made[k].uploadId == u
    && (k in w.q.rows ==> n in PartsOf(w.q, k) && PartsOf(w.q, k)[n] == size)
  }

  ghost predicate PartsClaimed(w: World, k: Key, u: string, nums: seq<int>) {
    && k in w.granted && k in w.made && w.made[k].uploadId == u && ValidPartList(nums)
    && (k in w.q.rows ==> Full(w.q, k) && IsOneTo(PartsOf(w.q, k).Keys, |nums|))
  }

  ghost predicate ScanOk(w: World, p: Proc)
    requires p.Scanning?
  {
    && p.version <= w.q.mutation
    && p.since <= w.born.Keys
    && (if p.tally.complete then
          && p.tally.keys <= w.born.Keys
          && Sum(SizesAt(w.born, p.tally.keys)) <= p.tally.bytes && |p.tally.keys| <= p.tally.objects
          && (forall k :: k in w.bucket && k in p.since && Passed(p.cursor, k) ==> k in p.tally.keys)
        else p.tally.bytes > STORAGE_BUDGET || p.tally.objects > MAX_GLOBAL_OBJECTS)
    && (w.q.mutation == p.version ==> forall k :: k in w.bucket ==> k in w.q.rows || k in p.since)
  }

  function SizesAt(b: map<Key, Obj>, keys: set<Key>): map<Key, nat> { map k | k in keys && k in b :: b[k].size }

  ghost predicate ProcOk(w: World, p: Proc) {
    match p
    case CreateWait(k) => true
    case PartUpload(k, u, _, n, size) => PartNoted(w, k, u, n, size)
    case ReleaseAborted(k, _, _) => Gone(w, k)
    case CompleteUpload(k, u, _, _, bytes, nums) => PartsClaimed(w, k, u, nums) && bytes == w.granted[k]
    case HeadCheck(k, _, _, _, bytes) => k in w.granted && bytes == w.granted[k]
    case Committing(k, _, _, _, _, _, _) => Stored(w, k)
    case DeleteObject(k, _, _, _) => Stored(w, k)
    case ReleaseDeleted(k, _, _, _) => Gone(w, k)
    case AbortUpload(k, _, _) => k in w.granted
    case CleanHead(k, r) => k in w.granted && k in w.made && w.made[k].uploadId == r.uploadId
    case CleanPromote(k, _, _) => Stored(w, k)
    case CleanDelete(k, _) => Stored(w, k)
    case CleanAbort(k, r) => k in w.granted && k in w.made && w.made[k].uploadId == r.uploadId
    case CleanHeadAgain(k, _) => k in w.granted && k !in w.open
    case CleanPromoteAgain(k, _, _) => Stored(w, k)
    case CleanFinish(k, _) => Gone(w, k)
    case Scanning(_, _, _, _, _, _) => ScanOk(w, p)
    case _ => true
  }

  /** The evidence without which a call must not take effect. */
  ghost predicate CallOk(w: World, c: Call) {
    match c
    case Reserve(_, _, _, _, _, _) => false
    case ScanApply(_, _, _, _, _, _, _) => false
    case Release(k, _, _) => Gone(w, k)
    case FinishCleanup(k, _) => Gone(w, k)
    case Commit(k, _, _, _, _) => Stored(w, k)
    case PromoteRecovered(k, _, _) => Stored(w, k)
    case _ => true
  }

  ghost predicate SentOk(w: World, s: Sent) {
    match s
    case ToQuota(c) => CallOk(w, c)
    case ToPart(k, u, n, size) => PartNoted(w, k, u, n, size)
    case ToComplete(k, u, nums) => PartsClaimed(w, k, u, nums)
    case ToAbort(_, _) => true
    case ToDelete(_) => true
  }

  ghost predicate TasksOk(w: World) {
    && (forall pid :: pid in w.procs ==> ProcOk(w, w.procs[pid]))
    && (forall s :: s in w.late ==> SentOk(w, s))
  }

  ghost predicate Inv(w: World) { Shared(w) && Budget(w) && TasksOk(w) }

  // ---------------------------------------------------------------------------
  // How the shared state may move under a waiting task

  ghost predicate HistoryGrows(w: World, w': World) {
    && w'.start == w.start
    && (forall k :: k in w.made ==> k in w'.made && w'.made[k] == w.made[k])
    && (forall k :: k in w.granted ==> k in w'.granted && w'.granted[k] == w.granted[k])
    && (forall k :: k in w.born ==> k in w'.born && w'.born[k] == w.born[k])
  }

  ghost predicate StoreMoves(w: World, w': World) {
    && (forall k :: k in w.made && k !in w.open ==> k !in w'.open)
    && (forall k :: k in w'.bucket && k !in w.bucket ==> k in w.open && k in w'.q.rows)
  }

  ghost predicate RowsMove(w: World, w': World) {
    && (forall k :: k in w.granted && k in w'.q.rows ==> k in w.q.rows && PartsGrow(w.q, w'.q, k) && SameOwner(w.q.rows[k], w'.q.rows[k]))
    && w.q.mutation <= w'.q.mutation
    && (w.q.mutation == w'.q.mutation ==> w.q.rows.Keys <= w'.q.rows.Keys)
  }

  ghost predicate Evolves(w: World, w': World) { HistoryGrows(w, w') && StoreMoves(w, w') && RowsMove(w, w') }

  lemma ScanStable(w: World, w': World, p: Proc)
    requires p.Scanning? && ScanOk(w, p) && Evolves(w, w') && StoreOk(w) && StoreOk(w')
    ensures ScanOk(w', p)
  {
    hide PartsGrow, SameOwner, Sum, LexLe, Passed;
    assert p.tally.complete ==> SizesAt(w'.born, p.tally.keys) == SizesAt(w.born, p.tally.keys);
    forall k | k in w'.bucket && k in p.since && Passed(p.cursor, k) && p.tally.complete ensures k in p.tally.keys {
      assert k in w.bucket;
    }
  }

  lemma PartStable(w: World, w': World, k: Key, u: string, n: int, size: nat)
    requires PartNoted(w, k, u, n, size) && Evolves(w, w')
    ensures PartNoted(w', k, u, n, size)
  {
    hide Sum, SameOwner, Full;
  }

  lemma ProcStable(w: World, w': World, p: Proc)
    requires ProcOk(w, p) && Evolves(w, w') && StoreOk(w) && StoreOk(w')
    ensures ProcOk(w', p)
  {
    hide ScanOk, Sum, StoreOk, Evolves, HistoryGrows, PartsClaimed, PartNoted, Gone;
    match p
    case Scanning(_, _, _, _, _, _) => ScanStable(w, w', p);
    case PartUpload(k, u, _, n, size) => PartStable(w, w', k, u, n, size);
    case CompleteUpload(k, u, _, _, bytes, nums) =>
      ClaimStable(w, w', k, u, nums);
      ClaimedGranted(w, k, u, nums);
      GrantedStable(w, w', k);
    case NoContent(_, _, _, _, _) =>
    case ReleaseAborted(k, _, _) => GoneStable(w, w', k);
    case ReleaseDeleted(k, _, _, _) => GoneStable(w, w', k);
    case CleanFinish(k, _) => GoneStable(w, w', k);
    case CleanHeadAgain(k, _) =>
      GrantedMade(w, k);
      GrantedStable(w, w', k);
      ClosedStable(w, w', k);
    case CreateWait(_) =>
    case CreateAbort(_, _) =>
    case PartFail(_, _, _) =>
    case DeferAborted(_, _, _) =>
    case Restoring(_, _, _, _) =>
    case DeferCompleted(_, _, _, _) =>
    case CleanRetry(_, _) =>
    case _ => GrantedStable(w, w', p.key);
  }

  /** Records are never withdrawn. */
  lemma GrantedStable(w: World, w': World, k: Key)
    requires Evolves(w, w')
    ensures k in w.granted ==> k in w'.granted && w'.granted[k] == w.granted[k]
    ensures Stored(w, k) ==> Stored(w', k)
    ensures k in w.made ==> k in w'.made && w'.made[k] == w.made[k]
  {
    hide StoreMoves, RowsMove;
  }

  lemma ClosedStable(w: World, w': World, k: Key)
    requires Evolves(w, w') && k in w.made && k !in w.open
    ensures k !in w'.open
  {}

  lemma ClaimedGranted(w: World, k: Key, u: string, nums: seq<int>)
    requires PartsClaimed(w, k, u, nums)
    ensures k in w.granted
  {}

  lemma GrantedMade(w: World, k: Key)
    requires StoreOk(w) && k in w.granted
    ensures k in w.made
  {}

  lemma GoneStable(w: World, w': World, k: Key)
    requires Gone(w, k) && Evolves(w, w')
    ensures Gone(w', k)
  {
    hide PartsGrow, SameOwner;
  }

  lemma ClaimStable(w: World, w': World, k: Key, u: string, nums: seq<int>)
    requires PartsClaimed(w, k, u, nums) && Evolves(w, w')
    ensures PartsClaimed(w', k, u, nums)
  {
    hide Sum, ValidPartList;
    if k in w'.q.rows { FullStays(w.q, w'.q, k); }
  }

  lemma SentStable(w: World, w': World, s: Sent)
    requires SentOk(w, s) && Evolves(w, w')
    ensures SentOk(w', s)
  {
    hide Sum, SameOwner, PartsClaimed, PartNoted, PartsGrow, Gone;
    match s
    case ToQuota(c) =>
      if c.Release? || c.FinishCleanup? { GoneStable(w, w', c.key); }
    case ToPart(k, u, n, size) => PartStable(w, w', k, u, n, size);
    case ToComplete(k, u, nums) => ClaimStable(w, w', k, u, nums);
    case _ =>
  }

  /** Whatever happens to the shared state, every waiting task keeps its evidence. */
  lemma TasksStable(w: World, w': World)
    requires TasksOk(w) && Evolves(w, w') && StoreOk(w) && StoreOk(w')
    ensures forall pid :: pid in w.procs ==> ProcOk(w', w.procs[pid])
    ensures forall s :: s in w.late ==> SentOk(w', s)
  {
    hide ProcOk, SentOk, Evolves, StoreOk;
    forall pid | pid in w.procs ensures ProcOk(w', w.procs[pid]) { ProcStable(w, w', w.procs[pid]); }
    forall s | s in w.late ensures SentOk(w', s) { SentStable(w, w', s); }
  }

  // ---------------------------------------------------------------------------
  // The store moves while the tables stand still

  /** Only the store changed. */
  predicate SameQuota(w: World, w': World) {
    w'.q == w.q && w'.start == w.start && w'.granted == w.granted
  }

  /** Objects leave the bucket, uploads are closed: nothing is created. */
  predicate Shrinks(w: World, w': World) {
    && SameQuota(w, w') && w'.made == w.made && w'.born == w.born && w'.creating == w.creating
    && (w'.open == w.open || exists k :: k in w.open && w'.open == w.open - {k})
    && (w'.bucket == w.bucket || exists k :: k in w.bucket && w'.bucket == w.bucket - {k})
  }

  lemma RowsStill(w: World, w': World)
    requires w'.q == w.q
    ensures RowsMove(w, w')
  {
    hide Sum, Full;
    forall k | k in w.q.rows ensures PartsGrow(w.q, w'.q, k) { SamePartsGrow(w.q, w'.q, k); }
  }

  lemma ShrinkStore(w: World, w': World)
    requires Shrinks(w, w') && StoreOk(w)
    ensures StoreOk(w') && HistoryGrows(w, w') && StoreMoves(w, w')
  {}

  lemma ShrinkTables(w: World, w': World)
    requires Shrinks(w, w')
    ensures CreatingOk(w) ==> CreatingOk(w')
    ensures RowsMatch(w) ==> RowsMatch(w')
    ensures LedgerMatches(w) ==> LedgerMatches(w')
    ensures OpenOk(w) ==> OpenOk(w')
    ensures CoveredIn(w) ==> CoveredIn(w')
  {
    hide Sum;
  }

  lemma ShrinkEvolves(w: World, w': World)
    requires Shrinks(w, w') && Shared(w)
    ensures Shared(w') && Evolves(w, w')
  {
    hide QInv, StoreOk, HistoryGrows, StoreMoves, RowsMove, OpenOk, CreatingOk, RowsMatch, LedgerMatches, CoveredIn;
    RowsStill(w, w');
    ShrinkStore(w, w');
    ShrinkTables(w, w');
  }

  lemma ShrinkBudget(w: World, w': World)
    requires Shrinks(w, w') && Budget(w)
    ensures Budget(w')
  {
    hide Sum;
    SumBelow(Unreserved(w'.bucket, w'.q.rows), Unreserved(w.bucket, w.q.rows));
  }

  lemma PutPartOpen(w: World, k: Key, u: string, n: int, size: nat)
    requires OpenOk(w) && IsOpen(w, k, u) && k in w.granted && PartNoted(w, k, u, n, size)
    ensures OpenOk(PutPart(w, k, u, n, size))
  {
    hide Sum;
    var w' := PutPart(w, k, u, n, size);
    forall j | j in w'.open
      ensures if j in w.granted
              then j in w.q.rows && forall m :: m in w'.open[j].parts ==> m in PartsOf(w.q, j) && PartsOf(w.q, j)[m] == w'.open[j].parts[m]
              else w'.open[j].parts == map[]
    {
      if j != k { assert w'.open[j] == w.open[j]; }
    }
  }

  lemma PutPartStore(w: World, k: Key, u: string, n: int, size: nat)
    requires StoreOk(w) && IsOpen(w, k, u)
    ensures var w' := PutPart(w, k, u, n, size); StoreOk(w') && HistoryGrows(w, w') && StoreMoves(w, w')
  {
    var w' := PutPart(w, k, u, n, size);
    assert w'.open.Keys == w.open.Keys;
    assert forall j :: j in w.open ==> w'.open[j].uploadId == w.open[j].uploadId && w'.open[j].actor == w.open[j].actor;
  }

  lemma NothingMoves(w: World)
    ensures Evolves(w, w)
  {
    hide Sum;
    RowsStill(w, w);
  }

  lemma PutPartKeeps(w: World, k: Key, u: string, n: int, size: nat)
    requires Shared(w) && PartNoted(w, k, u, n, size)
    ensures var w' := PutPart(w, k, u, n, size); Shared(w') && Evolves(w, w') && (Budget(w) ==> Budget(w'))
  {
    hide QInv, Sum, StoreOk, HistoryGrows, StoreMoves, RowsMove, PartNoted, OpenOk, CreatingOk, RowsMatch,
         LedgerMatches, CoveredIn;
    var w' := PutPart(w, k, u, n, size);
    NotedGranted(w, k, u, n, size);
    if IsOpen(w, k, u) {
      RowsStill(w, w');
      PutPartStore(w, k, u, n, size);
      PutPartOpen(w, k, u, n, size);
      TablesStill(w, w');
    } else {
      NothingMoves(w);
    }
    assert Unreserved(w'.bucket, w'.q.rows) == Unreserved(w.bucket, w.q.rows);
  }

  lemma NotedGranted(w: World, k: Key, u: string, n: int, size: nat)
    requires PartNoted(w, k, u, n, size)
    ensures k in w.granted
  {}

  /** The relations that do not look at open uploads. */
  lemma TablesStill(w: World, w': World)
    requires w'.q == w.q && w'.made == w.made && w'.granted == w.granted && w'.creating == w.creating && w'.start == w.start
    requires w'.born == w.born && w'.bucket == w.bucket
    ensures CreatingOk(w) ==> CreatingOk(w')
    ensures RowsMatch(w) ==> RowsMatch(w')
    ensures LedgerMatches(w) ==> LedgerMatches(w')
    ensures CoveredIn(w) ==> CoveredIn(w')
  {}

  /** The object R2 assembles has exactly the reserved size: every listed part is
      on record with the size R2 holds. */
  lemma AssembledSize(w: World, k: Key, u: string, nums: seq<int>)
    requires Shared(w) && PartsClaimed(w, k, u, nums) && CanComplete(w, k, u, nums)
    ensures k in w.q.rows && Assembled(w.open[k], nums) == Obj(w.made[k].actor, w.granted[k])
  {
    hide QInv;
    var listed := map n | n in w.open[k].parts && n in nums :: w.open[k].parts[n];
    var noted := PartsOf(w.q, k);
    forall n ensures n in noted ==> n in nums {
      if n in noted { assert 1 <= n <= |nums|; assert nums[n - 1] == n; }
    }
    assert listed == noted;
  }

  /** An upload with its row becomes an object of the reserved size. */
  predicate Born(w: World, w': World, k: Key, o: Obj) {
    && k in w.open && k in w.q.rows && k in w.granted && k in w.made && k !in w.born
    && o == Obj(w.made[k].actor, w.granted[k])
    && w' == w.(open := w.open - {k}, bucket := w.bucket[k := o], born := w.born[k := o])
  }

  lemma BornStore(w: World, w': World, k: Key, o: Obj)
    requires Born(w, w', k, o) && StoreOk(w)
    ensures StoreOk(w')
  {
    forall j | j in w'.born ensures j !in w'.open { assert j in w.born || j == k; }
    forall j | j in w'.born && j !in w'.start
      ensures j in w'.granted && j in w'.made && w'.born[j].size == w'.granted[j] && w'.born[j].actor == w'.made[j].actor
    {
      assert j in w.born || j == k;
    }
    forall j | j in w'.bucket ensures j in w'.born && w'.bucket[j] == w'.born[j] { assert j in w.bucket || j == k; }
  }

  lemma BornMoves(w: World, w': World, k: Key, o: Obj)
    requires Born(w, w', k, o) && StoreOk(w)
    ensures HistoryGrows(w, w') && StoreMoves(w, w')
  {}

  lemma BornTables(w: World, w': World, k: Key, o: Obj)
    requires Born(w, w', k, o)
    ensures CreatingOk(w) ==> CreatingOk(w')
    ensures RowsMatch(w) ==> RowsMatch(w')
    ensures LedgerMatches(w) ==> LedgerMatches(w')
  {
    hide Sum;
  }

  lemma BornOpen(w: World, w': World, k: Key, o: Obj)
    requires Born(w, w', k, o)
    ensures OpenOk(w) ==> OpenOk(w')
    ensures CoveredIn(w) ==> CoveredIn(w')
  {
    hide Sum;
  }

  lemma UnreservedReserved(bucket: map<Key, Obj>, rows: map<Key, Row>, k: Key, o: Obj)
    requires k in rows
    ensures Unreserved(bucket[k := o], rows) == Unreserved(bucket, rows)
  {}

  lemma CompleteKeeps(w: World, k: Key, u: string, nums: seq<int>)
    requires Shared(w) && PartsClaimed(w, k, u, nums)
    ensures var w' := Complete(w, k, u, nums); Shared(w') && Evolves(w, w') && (Budget(w) ==> Budget(w'))
  {
    hide QInv, Sum, Unreserved, RowBytes, Sizes, HistoryGrows, StoreMoves, RowsMove, Assembled, PartsClaimed,
         CanComplete, OpenOk, CreatingOk, RowsMatch, LedgerMatches, CoveredIn;
    var w' := Complete(w, k, u, nums);
    RowsStill(w, w');
    if CanComplete(w, k, u, nums) {
      AssembledSize(w, k, u, nums);
      CanCompleteOpen(w, k, u, nums);
      ClaimedGranted(w, k, u, nums);
      var o := Assembled(w.open[k], nums);
      assert Born(w, w', k, o);
      BornStore(w, w', k, o);
      BornMoves(w, w', k, o);
      BornTables(w, w', k, o);
      BornOpen(w, w', k, o);
      UnreservedReserved(w.bucket, w.q.rows, k, o);
    } else {
      NothingMoves(w);
    }
  }

  lemma CanCompleteOpen(w: World, k: Key, u: string, nums: seq<int>)
    requires CanComplete(w, k, u, nums)
    ensures k in w.open
  {}

  // ---------------------------------------------------------------------------
  // The tables move while the store stands still

  /** Only the coordinator's tables changed. */
  predicate SameStore(w: World, w': World) { w' == w.(q := w'.q) }

  lemma StoreStill(w: World, w': World)
    requires w' == w.(q := w'.q) && StoreOk(w) && CreatingOk(w)
    ensures StoreOk(w') && CreatingOk(w') && HistoryGrows(w, w') && StoreMoves(w, w')
  {}

  /** Rows rewritten in place. */
  lemma KeptMoves(w: World, w': World)
    requires SameStore(w, w') && Kept(w.q, w'.q)
    ensures RowsMove(w, w')
    ensures RowsMatch(w) ==> RowsMatch(w')
    ensures LedgerMatches(w) ==> LedgerMatches(w')
    ensures CoveredIn(w) ==> CoveredIn(w')
  {
    hide Sum, Full;
  }

  lemma KeptOpen(w: World, w': World)
    requires SameStore(w, w') && Kept(w.q, w'.q) && OpenOk(w)
    ensures OpenOk(w')
  {
    hide Sum, Full;
    forall k | k in w'.open && k in w'.granted
      ensures k in w'.q.rows && forall n :: n in w'.open[k].parts ==> n in PartsOf(w'.q, k) && PartsOf(w'.q, k)[n] == w'.open[k].parts[n]
    {
      assert PartsGrow(w.q, w'.q, k);
    }
  }

  lemma KeptBudget(w: World, w': World)
    requires SameStore(w, w') && Kept(w.q, w'.q) && Budget(w)
    ensures Budget(w')
  {
    hide Sum, RowsLive;
    assert Unreserved(w'.bucket, w'.q.rows) == Unreserved(w.bucket, w.q.rows);
    KeptCharges(w.q, w'.q);
  }

  /** A row leaves whose upload and object are both gone. */
  lemma RemovedMoves(w: World, w': World, k: Key)
    requires SameStore(w, w') && Removed(w.q, w'.q, k) && Gone(w, k)
    ensures RowsMove(w, w')
    ensures RowsMatch(w) ==> RowsMatch(w')
    ensures LedgerMatches(w) ==> LedgerMatches(w')
    ensures CoveredIn(w) ==> CoveredIn(w')
    ensures OpenOk(w) ==> OpenOk(w')
  {
    hide Sum, Full;
    RowsLeave(w, w', k);
    assert forall j :: j != k ==> PartsOf(w'.q, j) == PartsOf(w.q, j);
  }

  lemma RowsLeave(w: World, w': World, k: Key)
    requires k in w.q.rows && w'.q.rows == w.q.rows - {k} && w'.q.parts == w.q.parts - {k}
    requires w.q.mutation < w'.q.mutation
    ensures RowsMove(w, w')
  {
    hide Sum, Full;
    forall j | j in w'.q.rows ensures PartsGrow(w.q, w'.q, j) && SameOwner(w.q.rows[j], w'.q.rows[j]) {
      SamePartsGrow(w.q, w'.q, j);
    }
  }

  lemma UnreservedAfterLeaving(bucket: map<Key, Obj>, rows: map<Key, Row>, k: Key)
    requires k in rows
    ensures k !in bucket ==> Unreserved(bucket, rows - {k}) == Unreserved(bucket, rows)
    ensures k in bucket ==>
      && Sum(Unreserved(bucket, rows - {k})) == Sum(Unreserved(bucket, rows)) + bucket[k].size
      && |Unreserved(bucket, rows - {k})| == |Unreserved(bucket, rows)| + 1
  {
    hide Sum;
    var b := Unreserved(bucket, rows - {k});
    if k in bucket {
      assert b - {k} == Unreserved(bucket, rows);
      SumDrop(b, k);
    } else {
      assert b == Unreserved(bucket, rows);
    }
  }

  lemma RemovedBudget(w: World, w': World, k: Key)
    requires SameStore(w, w') && Removed(w.q, w'.q, k) && Gone(w, k) && Budget(w)
    ensures Budget(w')
  {
    hide Sum, Unreserved, RowBytes, RowBytesOf, Sizes;
    UnreservedAfterLeaving(w.bucket, w.q.rows, k);
    RowLeaves(w.q.rows, k, "");
  }

  /** A row becomes a receipt for an object that was stored. */
  lemma PromotedLedger(w: World, w': World, k: Key)
    requires SameStore(w, w') && Promoted(w.q, w'.q, k) && Stored(w, k)
    requires StoreOk(w) && RowsMatch(w) && LedgerMatches(w)
    ensures LedgerMatches(w')
  {
    hide Sum;
    assert forall j :: j in w'.q.ledger ==> j == k || (j in w.q.ledger && w'.q.ledger[j] == w.q.ledger[j]);
  }

  lemma PromotedCovered(w: World, w': World, k: Key)
    requires SameStore(w, w') && Promoted(w.q, w'.q, k)
    ensures CoveredIn(w) ==> CoveredIn(w')
  {
    hide Sum;
    assert forall j :: j in w.q.ledger ==> j in w'.q.ledger - {k};
  }

  lemma PromotedMoves(w: World, w': World, k: Key)
    requires SameStore(w, w') && Promoted(w.q, w'.q, k) && Stored(w, k)
    requires StoreOk(w) && RowsMatch(w)
    ensures RowsMove(w, w') && RowsMatch(w')
    ensures OpenOk(w) ==> OpenOk(w')
  {
    hide Sum, Full;
    RowsLeave(w, w', k);
    assert k !in w.open;
    assert forall j :: j != k ==> PartsOf(w'.q, j) == PartsOf(w.q, j);
  }

  lemma PromotedBudget(w: World, w': World, k: Key)
    requires SameStore(w, w') && Promoted(w.q, w'.q, k) && Stored(w, k)
    requires StoreOk(w) && RowsMatch(w) && Budget(w)
    ensures Budget(w')
  {
    hide Sum, Unreserved, RowBytes, RowBytesOf, Sizes, StoreOk, RowsMatch, Stored;
    UnreservedAfterLeaving(w.bucket, w.q.rows, k);
    RowLeaves(w.q.rows, k, "");
    if k in w.bucket { assert w.bucket[k].size == w.q.rows[k].bytes by { StoredSize(w, k); } }
  }

  lemma StoredSize(w: World, k: Key)
    requires StoreOk(w) && RowsMatch(w) && k in w.q.rows && k in w.bucket
    ensures w.bucket[k].size == w.q.rows[k].bytes && w.bucket[k].actor == w.q.rows[k].actor
  {}

  // ---------------------------------------------------------------------------
  // Any call with its evidence

  /** A call that carries its evidence keeps everything and disturbs no task. */
  lemma CallKeeps(w: World, c: Call)
    requires Shared(w) && CallOk(w, c)
    ensures var w' := CallQuota(w, c); Shared(w') && Evolves(w, w') && (Budget(w) ==> Budget(w'))
  {
    hide Do, QInv, Kept, Removed, Promoted, Added, Rescanned, StoreOk, CreatingOk, RowsMatch, LedgerMatches,
         OpenOk, CoveredIn, Budget, HistoryGrows, StoreMoves, RowsMove, Gone, Stored;
    var w' := CallQuota(w, c);
    var reply := Do(w.q, c, w.clock).1;
    DoKeepsInvariant(w.q, c, w.clock);
    PartsOfInvariant(w.q);
    DoEffect(w.q, c, w.clock);
    StoreStill(w, w');
    if Kept(w.q, w'.q) {
      KeptMoves(w, w');
      KeptOpen(w, w');
      if Budget(w) { KeptBudget(w, w'); }
    } else if c.Release? || c.FinishCleanup? {
      RemovedMoves(w, w', c.key);
      if Budget(w) { RemovedBudget(w, w', c.key); }
    } else {
      PromotedMoves(w, w', c.key);
      PromotedLedger(w, w', c.key);
      PromotedCovered(w, w', c.key);
      if Budget(w) { PromotedBudget(w, w', c.key); }
    }
  }

  lemma PartsOfInvariant(q: Quota)
    requires QInv(q)
    ensures PartsOk(q)
  {}

  // ---------------------------------------------------------------------------
  // The two calls with evidence of their own: reserve and the applied scan

  /** A reservation is granted to an upload that never had one. */
  ghost predicate Granted(w: World, w': World, k: Key) {
    && k in w.creating && k in w.made && k !in w.granted && k !in w.q.rows
    && w' == w.(q := w'.q, creating := w.creating - {k}, granted := w.granted[k := w.creating[k].size])
    && Added(w.q, w'.q, k, w.made[k].actor, w.creating[k].size)
    && w'.q.rows[k].uploadId == w.made[k].uploadId
  }

  lemma GrantTables(w: World, w': World, k: Key)
    requires Granted(w, w', k)
    ensures CreatingOk(w) ==> CreatingOk(w')
    ensures RowsMatch(w) ==> RowsMatch(w')
    ensures LedgerMatches(w) && StoreOk(w) ==> LedgerMatches(w')
    ensures CoveredIn(w) ==> CoveredIn(w')
  {
    hide Sum, GlobalRoom, ActorRoom;
    assert forall j :: j in w'.q.rows <==> j in w.q.rows || j == k;
  }

  lemma GrantStore(w: World, w': World, k: Key)
    requires Granted(w, w', k) && StoreOk(w)
    ensures StoreOk(w') && HistoryGrows(w, w') && StoreMoves(w, w') && k !in w.bucket
  {
    hide Added;
  }

  lemma GrantOpen(w: World, w': World, k: Key)
    requires Granted(w, w', k)
    ensures OpenOk(w) ==> OpenOk(w')
  {
    hide Sum, GlobalRoom, ActorRoom;
    assert forall j :: PartsOf(w'.q, j) == PartsOf(w.q, j);
    assert forall j :: j in w'.q.rows <==> j in w.q.rows || j == k;
  }

  lemma GrantRows(w: World, w': World, k: Key)
    requires Granted(w, w', k)
    ensures RowsMove(w, w')
  {
    hide Sum, GlobalRoom, ActorRoom, Full;
    forall j | j in w.q.rows ensures PartsGrow(w.q, w'.q, j) { SamePartsGrow(w.q, w'.q, j); }
  }

  lemma UnreservedSame(bucket: map<Key, Obj>, rows: map<Key, Row>, rows': map<Key, Row>, k: Key)
    requires k !in bucket && rows'.Keys == rows.Keys + {k}
    ensures Unreserved(bucket, rows') == Unreserved(bucket, rows)
  {}

  lemma GrantBudget(w: World, w': World, k: Key)
    requires Granted(w, w', k) && k !in w.bucket && Budget(w)
    ensures Budget(w')
  {
    hide Sum, ActorRoom, RowBytes, RowBytesOf, Sizes, Unreserved;
    UnreservedSame(w.bucket, w.q.rows, w'.q.rows, k);
    RowArrives(w.q.rows, w'.q.rows, k, "");
  }

  lemma GrantedKeeps(w: World, w': World, k: Key)
    requires Granted(w, w', k) && Shared(w) && QInv(w'.q)
    ensures Shared(w') && Evolves(w, w') && (Budget(w) ==> Budget(w'))
  {
    hide QInv, Granted, StoreOk, CreatingOk, RowsMatch, LedgerMatches, OpenOk, CoveredIn, Budget, HistoryGrows,
         StoreMoves, RowsMove;
    GrantTables(w, w', k);
    GrantStore(w, w', k);
    GrantOpen(w, w', k);
    GrantRows(w, w', k);
    if Budget(w) { GrantBudget(w, w', k); }
  }

  lemma ReservedRow(q: Quota, c: Call, now: int)
    requires c.Reserve? && Do(q, c, now).1.Reserved?
    ensures c.key in Do(q, c, now).0.rows && Do(q, c, now).0.rows[c.key].uploadId == c.uploadId
  {
    hide GlobalRoom, ActorRoom, Unsettled, Sum;
  }

  /** A refused or failed reserve leaves the upload without a reservation. */
  lemma RefusedGrant(w: World, w': World, k: Key)
    requires Shared(w) && k in w.creating && Kept(w.q, w'.q) && QInv(w'.q)
    requires w' == w.(q := w'.q, creating := w.creating - {k})
    ensures Shared(w') && Evolves(w, w') && (Budget(w) ==> Budget(w'))
  {
    hide QInv, Kept, StoreOk, RowsMatch, LedgerMatches, OpenOk, CoveredIn, Budget, HistoryGrows, StoreMoves, RowsMove;
    var m := w.(q := w'.q);
    StoreStill(w, m);
    KeptMoves(w, m);
    KeptOpen(w, m);
    if Budget(w) { KeptBudget(w, m); }
    CreatingIrrelevant(w, m, w');
    CreatingUnseen(w, m, w');
  }

  lemma CreatingIrrelevant(w: World, m: World, w': World)
    requires w' == m.(creating := w'.creating)
    ensures StoreOk(m) ==> StoreOk(w')
    ensures RowsMatch(m) ==> RowsMatch(w')
    ensures LedgerMatches(m) ==> LedgerMatches(w')
    ensures CoveredIn(m) ==> CoveredIn(w')
    ensures Budget(m) ==> Budget(w')
  {
    hide Sum;
  }

  lemma CreatingUnseen(w: World, m: World, w': World)
    requires w' == m.(creating := w'.creating)
    ensures OpenOk(m) ==> OpenOk(w')
    ensures Evolves(w, m) ==> Evolves(w, w')
  {
    hide Sum, Full, PartsGrow, SameOwner;
  }

  lemma GrantKeeps(w: World, k: Key, asOf: int)
    requires Shared(w) && k in w.creating && k in w.made
    ensures var w' := Grant(w, k, asOf); Shared(w') && Evolves(w, w') && (Budget(w) ==> Budget(w'))
  {
    hide Do, QInv, Kept, Added, StoreOk, RowsMatch, LedgerMatches, OpenOk, CoveredIn, Budget, Evolves;
    var c := GrantCall(w, k, asOf);
    var w' := Grant(w, k, asOf);
    DoKeepsInvariant(w.q, c, w.clock);
    PartsOfInvariant(w.q);
    DoEffect(w.q, c, w.clock);
    if Answer(w, c).Reserved? {
      ReservedRow(w.q, c, w.clock);
      assert k !in w.q.rows by { AddedFresh(w.q, w'.q, k, w.made[k].actor, w.creating[k].size); }
      assert Granted(w, w', k);
      GrantedKeeps(w, w', k);
    } else {
      RefusedGrant(w, w', k);
    }
  }

  lemma AddedFresh(q: Quota, q': Quota, k: Key, a: string, n: int)
    requires Added(q, q', k, a, n)
    ensures k !in q.rows
  {}

  // ---------------------------------------------------------------------------
  // The applied scan

  /** An object without a reservation was seen by a scan no mutation crossed. */
  lemma ScanSawAll(w: World, p: Proc)
    requires p.Scanning? && ScanOk(w, p) && ScanOver(p) && p.tally.complete && w.q.mutation == p.version
    ensures forall k :: k in w.bucket && k !in w.q.rows ==> k in p.tally.keys
  {
    hide Sum;
  }

  lemma ScanCounts(w: World, w': World, p: Proc)
    requires StoreOk(w) && p.Scanning? && ScanOk(w, p) && ScanOver(p) && w.q.mutation == p.version
    requires SameStore(w, w') && Rescanned(w.q, w'.q)
    requires w'.q.completedBytes == p.tally.bytes && w'.q.completedObjects == p.tally.objects
    ensures Counted(w')
  {
    hide Sum;
    if p.tally.complete {
      ScanSawAll(w, p);
      SumBelow(Unreserved(w'.bucket, w'.q.rows), SizesAt(w.born, p.tally.keys));
      assert SizesAt(w.born, p.tally.keys).Keys == p.tally.keys;
    }
  }

  /** The receipts a complete scan drops are of objects that are gone. */
  lemma ScanCovers(w: World, w': World, p: Proc)
    requires Shared(w) && p.Scanning? && ScanOk(w, p) && ScanOver(p) && w.q.mutation == p.version
    requires SameStore(w, w') && w'.q == DoScanApply(w.q, p.scan, p.version, p.asOf, p.tally.bytes, p.tally.objects, p.tally.keys, p.tally.complete).0
    requires Rescanned(w.q, w'.q)
    ensures CoveredIn(w')
  {
    hide Sum, QInv, OpenOk, CreatingOk, RowsMatch, ScanOk;
    if p.tally.complete { ScanSawAll(w, p); }
    forall k | k in w'.bucket && k !in w'.start ensures k in w'.q.rows || k in w'.q.ledger {
      assert k in w.q.rows || k in w.q.ledger;
    }
  }

  lemma RescannedMoves(w: World, w': World)
    requires SameStore(w, w') && Rescanned(w.q, w'.q)
    ensures RowsMove(w, w')
    ensures RowsMatch(w) ==> RowsMatch(w')
    ensures LedgerMatches(w) ==> LedgerMatches(w')
    ensures OpenOk(w) ==> OpenOk(w')
  {
    hide Sum, Full;
    assert forall k :: PartsOf(w'.q, k) == PartsOf(w.q, k);
    forall k | k in w.q.rows ensures PartsGrow(w.q, w'.q, k) { SamePartsGrow(w.q, w'.q, k); }
  }

  lemma ApplyKeeps(w: World, p: Proc)
    requires Shared(w) && p.Scanning? && ScanOk(w, p) && ScanOver(p)
    ensures var w' := CallQuota(w, ApplyCall(p)); Shared(w') && Evolves(w, w') && (Budget(w) ==> Budget(w'))
  {
    hide QInv, Kept, Rescanned, StoreOk, CreatingOk, RowsMatch, LedgerMatches, OpenOk, CoveredIn, HistoryGrows,
         StoreMoves, RowsMove, ScanOk, Sum, Unreserved, RowBytes, Sizes;
    var c := ApplyCall(p);
    var w' := CallQuota(w, c);
    DoKeepsInvariant(w.q, c, w.clock);
    PartsOfInvariant(w.q);
    DoEffect(w.q, c, w.clock);
    StoreStill(w, w');
    if ScanCurrent(w.q, p.scan, p.version) {
      RescannedMoves(w, w');
      ScanCovers(w, w', p);
      ScanCounts(w, w', p);
      RowsRescanned(w.q, w'.q);
    } else {
      KeptMoves(w, w');
      KeptOpen(w, w');
      if Budget(w) { KeptBudget(w, w'); }
    }
  }

  lemma RowsRescanned(q: Quota, q': Quota)
    requires Rescanned(q, q')
    ensures q'.rows == q.rows
  {}

  // ---------------------------------------------------------------------------
  // Steps

  lemma TablesUnseen(m: World, w': World)
    requires w' == m.(procs := w'.procs, late := w'.late, clock := w'.clock)
    ensures StoreOk(m) ==> StoreOk(w')
    ensures CreatingOk(m) ==> CreatingOk(w')
    ensures RowsMatch(m) ==> RowsMatch(w')
    ensures LedgerMatches(m) ==> LedgerMatches(w')
    ensures CoveredIn(m) ==> CoveredIn(w')
  {
    hide Sum;
  }

  lemma PartsUnseen(m: World, w': World)
    requires w' == m.(procs := w'.procs, late := w'.late, clock := w'.clock)
    ensures OpenOk(m) ==> OpenOk(w')
    ensures Budget(m) ==> Budget(w')
    ensures HistoryGrows(m, w') && StoreMoves(m, w')
  {
    hide Sum;
  }

  /** Shared state and budget do not look at tasks, lost calls or the clock. */
  lemma TasksUnseen(m: World, w': World)
    requires w' == m.(procs := w'.procs, late := w'.late, clock := w'.clock)
    requires Shared(m) && Budget(m)
    ensures Shared(w') && Budget(w') && Evolves(m, w')
  {
    hide QInv, StoreOk, CreatingOk, RowsMatch, LedgerMatches, OpenOk, CoveredIn, Budget, HistoryGrows, StoreMoves,
         RowsMove;
    RowsStill(m, w');
    TablesUnseen(m, w');
    PartsUnseen(m, w');
  }

  /** A move of the shared state that every task survives. */
  lemma Moved(w: World, m: World)
    requires Inv(w) && Shared(m) && Budget(m) && Evolves(w, m) && m.procs == w.procs && m.late == w.late
    ensures Inv(m)
  {
    hide ProcOk, SentOk, QInv, CreatingOk, RowsMatch, LedgerMatches, OpenOk, CoveredIn, Budget, Evolves, StoreOk;
    TasksStable(w, m);
  }

  lemma SetProc(m: World, pid: nat, p: Proc)
    requires Inv(m) && ProcOk(m, p)
    ensures Inv(At(m, pid, p))
  {
    hide ProcOk, SentOk, QInv, CreatingOk, RowsMatch, LedgerMatches, OpenOk, CoveredIn, Budget, Evolves, StoreOk;
    var w' := At(m, pid, p);
    TasksUnseen(m, w');
    TasksStable(m, w');
    ProcStable(m, w', p);
  }

  lemma DropProc(m: World, pid: nat)
    requires Inv(m)
    ensures Inv(Ends(m, pid))
  {
    hide ProcOk, SentOk, QInv, CreatingOk, RowsMatch, LedgerMatches, OpenOk, CoveredIn, Budget, Evolves, StoreOk;
    var w' := Ends(m, pid);
    TasksUnseen(m, w');
    TasksStable(m, w');
  }

  /** A call whose answer is lost may land later, with its evidence. */
  lemma LoseCall(m: World, s: Sent)
    requires Inv(m) && SentOk(m, s)
    ensures Inv(Lost(m, s)) && Evolves(m, Lost(m, s))
  {
    hide ProcOk, SentOk, QInv, CreatingOk, RowsMatch, LedgerMatches, OpenOk, CoveredIn, Budget, Evolves, StoreOk;
    var w' := Lost(m, s);
    TasksUnseen(m, w');
    TasksStable(m, w');
    SentStable(m, w', s);
  }

  lemma LoseAnd(m: World, s: Sent, pid: nat, p: Proc)
    requires Inv(m) && SentOk(m, s) && ProcOk(m, p)
    ensures Inv(At(Lost(m, s), pid, p))
  {
    hide ProcOk, SentOk, QInv, CreatingOk, RowsMatch, LedgerMatches, OpenOk, CoveredIn, Budget, Evolves, StoreOk;
    LoseCall(m, s);
    ProcStable(m, Lost(m, s), p);
    SetProc(Lost(m, s), pid, p);
  }

  lemma Called(w: World, c: Call)
    requires Inv(w) && CallOk(w, c)
    ensures Inv(CallQuota(w, c)) && Evolves(w, CallQuota(w, c))
  {
    hide Do, CallOk, Shared, Budget, TasksOk, Evolves;
    CallKeeps(w, c);
    assert Inv(CallQuota(w, c)) by { InvParts(w); Moved(w, CallQuota(w, c)); }
  }

  lemma InvParts(w: World)
    requires Inv(w)
    ensures Shared(w) && Budget(w) && TasksOk(w)
  {}

  lemma Aborted(w: World, k: Key, u: string)
    requires Inv(w)
    ensures Inv(Abort(w, k, u))
    ensures IsOpen(w, k, u) ==> Gone(Abort(w, k, u), k)
  {
    hide QInv, CreatingOk, RowsMatch, LedgerMatches, OpenOk, CoveredIn, Budget, TasksOk, Evolves;
    var m := Abort(w, k, u);
    assert Shrinks(w, m);
    ShrinkEvolves(w, m);
    ShrinkBudget(w, m);
    Moved(w, m);
  }

  lemma Deleted(w: World, k: Key)
    requires Inv(w)
    ensures Inv(Delete(w, k))
    ensures Stored(w, k) ==> Gone(Delete(w, k), k)
  {
    hide QInv, CreatingOk, RowsMatch, LedgerMatches, OpenOk, CoveredIn, Budget, TasksOk, Evolves;
    var m := Delete(w, k);
    assert k !in w.bucket ==> m == w;
    assert Shrinks(w, m);
    ShrinkEvolves(w, m);
    ShrinkBudget(w, m);
    Moved(w, m);
  }

  lemma Landed(w: World, s: Sent)
    requires Inv(w) && SentOk(w, s)
    ensures Inv(Land(w, s))
  {
    hide Shared, Budget, TasksOk, Evolves, Do, CallOk, PartNoted, PartsClaimed, Abort, Delete, PutPart, Complete;
    InvParts(w);
    match s
    case ToQuota(c) => Called(w, c);
    case ToPart(k, u, n, size) =>
      PutPartKeeps(w, k, u, n, size);
      Moved(w, PutPart(w, k, u, n, size)) by { PutPartFrame(w, k, u, n, size); }
    case ToComplete(k, u, nums) =>
      CompleteKeeps(w, k, u, nums);
      Moved(w, Complete(w, k, u, nums)) by { CompleteFrame(w, k, u, nums); }
    case ToAbort(k, u) => Aborted(w, k, u);
    case ToDelete(k) => Deleted(w, k);
  }

  lemma PutPartFrame(w: World, k: Key, u: string, n: int, size: nat)
    ensures PutPart(w, k, u, n, size).procs == w.procs && PutPart(w, k, u, n, size).late == w.late
  {}

  lemma CompleteFrame(w: World, k: Key, u: string, nums: seq<int>)
    ensures Complete(w, k, u, nums).procs == w.procs && Complete(w, k, u, nums).late == w.late
  {}

  // ---------------------------------------------------------------------------
  // Every await of every task

  /** Uploading a part, and giving an upload up. */
  lemma PartActs(w: World, pid: nat, p: Proc, heard: bool)
    requires Inv(w) && ProcOk(w, p)
    requires p.CreateWait? || p.CreateAbort? || p.PartUpload? || p.PartFail? || p.AbortUpload? || p.ReleaseAborted? || p.DeferAborted?
    ensures Inv(Advance(w, pid, p, heard))
  {
    hide Inv, Do, PartNoted, Abort, PutPart, Gone, IsOpen;
    match p
    case CreateWait(k) =>
      if !heard { SetProc(w, pid, CreateAbort(k, if k in w.made then w.made[k].uploadId else "")); }
    case CreateAbort(k, u) =>
      if heard { Aborted(w, k, u); DropProc(Abort(w, k, u), pid); }
      else { LoseCall(w, ToAbort(k, u)); DropProc(Lost(w, ToAbort(k, u)), pid); }
    case PartUpload(k, u, t, n, size) =>
      var s := ToPart(k, u, n, size);
      if heard && IsOpen(w, k, u) { Landed(w, s); DropProc(Land(w, s), pid); }
      else if heard { SetProc(w, pid, PartFail(k, u, t)); }
      else { LoseAnd(w, s, pid, PartFail(k, u, t)); }
    case PartFail(k, u, t) =>
      var c := Call.ClaimAbort(k, u, t);
      if heard { ClaimAbortHeard(w, pid, k, u, t); }
      else { LoseCall(w, ToQuota(c)); DropProc(Lost(w, ToQuota(c)), pid); }
    case AbortUpload(k, u, t) =>
      if heard && IsOpen(w, k, u) { Aborted(w, k, u); SetProc(Abort(w, k, u), pid, ReleaseAborted(k, u, t)); }
      else if heard { SetProc(w, pid, DeferAborted(k, u, t)); }
      else { LoseAnd(w, ToAbort(k, u), pid, DeferAborted(k, u, t)); }
    case ReleaseAborted(k, u, t) =>
      var c := Call.Release(k, u, t);
      if heard { Called(w, c); DropProc(CallQuota(w, c), pid); }
      else { LoseAnd(w, ToQuota(c), pid, DeferAborted(k, u, t)); }
    case DeferAborted(k, u, t) => LastCall(w, pid, Call.DeferAbort(k, u, t), heard);
  }

  /** A final call of a task that needs no evidence. */
  lemma LastCall(w: World, pid: nat, c: Call, heard: bool)
    requires Inv(w) && CallOk(w, c)
    ensures Inv(Ends(if heard then CallQuota(w, c) else Lost(w, ToQuota(c)), pid))
  {
    hide Inv, Do, CallOk;
    if heard { Called(w, c); DropProc(CallQuota(w, c), pid); }
    else { LoseCall(w, ToQuota(c)); DropProc(Lost(w, ToQuota(c)), pid); }
  }

  /** An accepted abort claim is of an upload that was granted. */
  lemma ClaimAbortHeard(w: World, pid: nat, k: Key, u: string, t: string)
    requires Inv(w)
    ensures var c := Call.ClaimAbort(k, u, t);
      && Inv(Ends(CallQuota(w, c), pid))
      && (Answer(w, c).Accepted? ==> Inv(At(CallQuota(w, c), pid, AbortUpload(k, u, t))))
  {
    hide Inv, Do;
    var c := Call.ClaimAbort(k, u, t);
    Called(w, c);
    DropProc(CallQuota(w, c), pid);
    if Answer(w, c).Accepted? {
      AcceptedHasRow(w.q, c, w.clock);
      RowGranted(w, k);
      SetProc(CallQuota(w, c), pid, AbortUpload(k, u, t));
    }
  }

  lemma RowGranted(w: World, k: Key)
    requires Inv(w) && k in w.q.rows
    ensures k in w.granted && k in w.made && w.q.rows[k].bytes == w.granted[k] && w.q.rows[k].uploadId == w.made[k].uploadId
  {
    hide QInv, Budget, TasksOk, StoreOk, OpenOk, CoveredIn;
  }

  lemma AcceptedHasRow(q: Quota, c: Call, now: int)
    requires c.ClaimAbort? || c.ReservePart? || c.ClaimComplete?
    requires Do(q, c, now).1.Accepted? || Do(q, c, now).1.Claimed?
    ensures Has(q, c.key, c.uploadId)
  {
    hide Sum, NextExpiry, AnyDue;
  }

  lemma StoredIs(w: World, k: Key)
    requires Inv(w) && k in w.granted && k in w.bucket
    ensures Stored(w, k) && w.bucket[k].size == w.granted[k]
  {
    hide QInv, Budget, TasksOk, OpenOk, CoveredIn, RowsMatch, LedgerMatches;
  }

  lemma AbsentClosedIsGone(w: World, k: Key)
    requires Inv(w) && k in w.granted && k !in w.open && k !in w.bucket
    ensures Gone(w, k)
  {
    hide QInv, Budget, TasksOk, OpenOk, CoveredIn, RowsMatch, LedgerMatches;
  }

  /** `complete` answered: the object has the reserved size, so the worker goes on
      to commit; its size-mismatch branch is not taken. */
  lemma CompleteHeard(w: World, pid: nat, p: Proc)
    requires Inv(w) && p.CompleteUpload? && ProcOk(w, p) && CanComplete(w, p.key, p.uploadId, p.numbers)
    ensures Assembled(w.open[p.key], p.numbers).size == p.bytes
    ensures Inv(Advance(w, pid, p, true))
  {
    hide Inv, Budget, TasksOk, PartsClaimed, CanComplete, Assembled, QInv, StoreOk, CreatingOk, RowsMatch,
         LedgerMatches, OpenOk, CoveredIn;
    var k, u, nums := p.key, p.uploadId, p.numbers;
    InvParts(w);
    AssembledSize(w, k, u, nums);
    Landed(w, ToComplete(k, u, nums));
    var m := Complete(w, k, u, nums);
    ClaimedGranted(w, k, u, nums);
    SetProc(m, pid, Committing(k, u, p.token, p.op, p.bytes, false, false));
  }

  /** Completing an upload. */
  lemma CompleteActs(w: World, pid: nat, p: Proc, heard: bool)
    requires Inv(w) && ProcOk(w, p)
    requires p.CompleteUpload? || p.HeadCheck? || p.NoContent? || p.Restoring? || p.DeferCompleted? || p.DeleteObject? || p.ReleaseDeleted?
    ensures Inv(Advance(w, pid, p, heard))
  {
    hide Inv, Do, PartsClaimed, CanComplete, Complete, Delete, Gone, Stored, Assembled;
    match p
    case CompleteUpload(k, u, t, o, bytes, nums) =>
      if heard && CanComplete(w, k, u, nums) {
        CompleteHeard(w, pid, p);
      } else {
        ClaimedGranted(w, k, u, nums);
        if heard { SetProc(w, pid, HeadCheck(k, u, t, o, bytes)); }
        else { LoseAnd(w, ToComplete(k, u, nums), pid, HeadCheck(k, u, t, o, bytes)); }
      }
    case HeadCheck(k, u, t, o, bytes) =>
      if heard && k in w.bucket { StoredIs(w, k); SetProc(w, pid, Committing(k, u, t, o, bytes, true, false)); }
      else if heard { SetProc(w, pid, Restoring(k, u, t, o)); }
      else { SetProc(w, pid, DeferCompleted(k, u, t, o)); }
    case NoContent(_, _, _, _, _) => DropProc(w, pid);
    case Restoring(k, u, t, o) => LastCall(w, pid, Call.RestoreActive(k, u, t, o), heard);
    case DeferCompleted(k, u, t, o) => LastCall(w, pid, Call.DeferCompletion(k, u, t, o), heard);
    case DeleteObject(k, u, t, o) =>
      if heard { Deleted(w, k); SetProc(Delete(w, k), pid, ReleaseDeleted(k, u, t, o)); }
      else { LoseAnd(w, ToDelete(k), pid, DeferCompleted(k, u, t, o)); }
    case ReleaseDeleted(k, u, t, o) =>
      var c := Call.Release(k, u, t);
      if heard { Called(w, c); DropProc(CallQuota(w, c), pid); }
      else { LoseAnd(w, ToQuota(c), pid, DeferCompleted(k, u, t, o)); }
  }

  lemma CommitActs(w: World, pid: nat, p: Proc, heard: bool)
    requires Inv(w) && ProcOk(w, p) && p.Committing?
    ensures Inv(Advance(w, pid, p, heard))
  {
    hide Inv, Do, Stored, Evolves;
    var Committing(k, u, t, o, size, viaHead, again) := p;
    var c := Call.Commit(k, u, t, o, size);
    if !heard {
      if again { LoseCall(w, ToQuota(c)); DropProc(Lost(w, ToQuota(c)), pid); }
      else { LoseAnd(w, ToQuota(c), pid, p.(again := true)); }
    } else {
      Called(w, c);
      var m := CallQuota(w, c);
      GrantedStable(w, m, k);
      SetProc(m, pid, NoContent(k, u, t, o, size));
      SetProc(m, pid, DeferCompleted(k, u, t, o));
      SetProc(m, pid, DeleteObject(k, u, t, o));
    }
  }

  /** The cleanup task of the coordinator. */
  lemma CleanActs(w: World, pid: nat, p: Proc, heard: bool)
    requires Inv(w) && ProcOk(w, p)
    requires p.CleanHead? || p.CleanDelete? || p.CleanAbort?
    ensures Inv(Advance(w, pid, p, heard))
  {
    hide Inv, Do, Abort, Delete, Gone, Stored, IsOpen;
    match p
    case CleanHead(k, r) =>
      if heard && k in w.bucket { StoredIs(w, k); SetProc(w, pid, CleanPromote(k, r, w.bucket[k].size)); }
      else if heard { SetProc(w, pid, CleanAbort(k, r)); }
      else { SetProc(w, pid, CleanRetry(k, r)); }
    case CleanDelete(k, r) =>
      if heard { Deleted(w, k); SetProc(Delete(w, k), pid, CleanFinish(k, r)); }
      else { LoseAnd(w, ToDelete(k), pid, CleanRetry(k, r)); }
    case CleanAbort(k, r) =>
      if heard && IsOpen(w, k, r.uploadId) { Aborted(w, k, r.uploadId); SetProc(Abort(w, k, r.uploadId), pid, CleanFinish(k, r)); }
      else if heard { NotOpen(w, k, r.uploadId); SetProc(w, pid, CleanHeadAgain(k, r)); }
      else { LoseAnd(w, ToAbort(k, r.uploadId), pid, CleanRetry(k, r)); }
  }

  lemma CleanEnds(w: World, pid: nat, p: Proc, heard: bool)
    requires Inv(w) && ProcOk(w, p)
    requires p.CleanHeadAgain? || p.CleanFinish? || p.CleanRetry?
    ensures Inv(Advance(w, pid, p, heard))
  {
    hide Inv, Do, Gone, Stored;
    match p
    case CleanHeadAgain(k, r) =>
      if heard && k in w.bucket { StoredIs(w, k); SetProc(w, pid, CleanPromoteAgain(k, r, w.bucket[k].size)); }
      else if heard { AbsentClosedIsGone(w, k); SetProc(w, pid, CleanFinish(k, r)); }
      else { SetProc(w, pid, CleanRetry(k, r)); }
    case CleanFinish(k, r) =>
      var c := Call.FinishCleanup(k, r);
      Called(w, c);
      DropProc(CallQuota(w, c), pid);
    case CleanRetry(k, r) =>
      var c := Call.RetryCleanup(k, r);
      Called(w, c);
      DropProc(CallQuota(w, c), pid);
  }

  /** A key has one upload, so a failed abort of it means it is closed. */
  lemma NotOpen(w: World, k: Key, u: string)
    requires Inv(w) && k in w.made && w.made[k].uploadId == u && !IsOpen(w, k, u)
    ensures k !in w.open
  {
    hide QInv, Budget, TasksOk, OpenOk, CoveredIn, RowsMatch, LedgerMatches;
  }

  lemma PromoteActs(w: World, pid: nat, p: Proc, heard: bool)
    requires Inv(w) && ProcOk(w, p) && (p.CleanPromote? || p.CleanPromoteAgain?)
    ensures Inv(Advance(w, pid, p, heard))
  {
    hide Inv, Do, Stored;
    var k, r := p.key, p.row;
    var c := Call.PromoteRecovered(k, r, p.found);
    Called(w, c);
    DropProc(CallQuota(w, c), pid);
    SetProc(w, pid, CleanDelete(k, r));
    SetProc(w, pid, CleanRetry(k, r));
  }

  lemma ActKeeps(w: World, pid: nat, heard: bool)
    requires Inv(w) && pid in w.procs
    ensures Inv(Advance(w, pid, w.procs[pid], heard))
  {
    hide Shared, Budget, ProcOk, SentOk, Advance;
    var p := w.procs[pid];
    if p.Committing? { CommitActs(w, pid, p, heard); }
    else if p.CleanPromote? || p.CleanPromoteAgain? { PromoteActs(w, pid, p, heard); }
    else if p.CleanHead? || p.CleanDelete? || p.CleanAbort? { CleanActs(w, pid, p, heard); }
    else if p.CleanHeadAgain? || p.CleanFinish? || p.CleanRetry? { CleanEnds(w, pid, p, heard); }
    else if p.Scanning? { ScanWaits(w, pid, p, heard); }
    else if p.CompleteUpload? || p.HeadCheck? || p.NoContent? || p.Restoring? || p.DeferCompleted? || p.DeleteObject? || p.ReleaseDeleted? { CompleteActs(w, pid, p, heard); }
    else { PartActs(w, pid, p, heard); }
  }

  lemma ScanWaits(w: World, pid: nat, p: Proc, heard: bool)
    requires p.Scanning?
    ensures Advance(w, pid, p, heard) == w
  {
    hide Do;
  }

  // ---------------------------------------------------------------------------
  // Starting a task, and the scan

  lemma PartStarts(w: World, s: Step)
    requires Inv(w) && s.PartRequest?
    ensures Inv(StartPart(w, s))
  {
    hide Inv, Do, PartNoted;
    var c := Call.ReservePart(s.key, s.uploadId, s.token, s.number, s.size);
    LoseIfUnheard(w, c);
    Called(w, c);
    if Answer(w, c).Accepted? {
      AcceptedHasRow(w.q, c, w.clock);
      RowGranted(w, s.key);
      PartRecorded(w, s);
      SetProc(CallQuota(w, c), s.pid, PartUpload(s.key, s.uploadId, s.token, s.number, s.size));
    }
  }

  lemma LoseIfUnheard(w: World, c: Call)
    requires Inv(w) && CallOk(w, c)
    ensures Inv(Lost(w, ToQuota(c)))
  {
    hide Inv, CallOk;
    LoseCall(w, ToQuota(c));
  }

  lemma PartRecorded(w: World, s: Step)
    requires s.PartRequest? && s.key in w.granted && s.key in w.made && w.made[s.key].uploadId == s.uploadId
    requires Answer(w, Call.ReservePart(s.key, s.uploadId, s.token, s.number, s.size)).Accepted?
    ensures PartNoted(CallQuota(w, Call.ReservePart(s.key, s.uploadId, s.token, s.number, s.size)), s.key, s.uploadId, s.number, s.size)
  {
    hide Sum, NextExpiry, AnyDue, Holds;
  }

  lemma CompleteStarts(w: World, s: Step)
    requires Inv(w) && s.CompleteRequest?
    ensures Inv(StartComplete(w, s))
  {
    hide Inv, Do, PartsClaimed, Full;
    var c := Call.ClaimComplete(s.key, s.uploadId, s.token, s.numbers);
    LoseIfUnheard(w, c);
    Called(w, c);
    var reply := Answer(w, c);
    if reply.Claimed? {
      AcceptedHasRow(w.q, c, w.clock);
      RowGranted(w, s.key);
      PartsRecorded(w, s);
      SetProc(CallQuota(w, c), s.pid, CompleteUpload(s.key, s.uploadId, s.token, reply.operation, reply.bytes, s.numbers));
    }
  }

  lemma ClaimedMeans(q: Quota, k: Key, u: string, t: string, nums: seq<int>, now: int)
    requires Do(q, Call.ClaimComplete(k, u, t, nums), now).1.Claimed?
    ensures var (q', reply) := Do(q, Call.ClaimComplete(k, u, t, nums), now);
      && ValidPartList(nums) && k in q.rows && k in q'.rows
      && IsOneTo(PartsOf(q', k).Keys, |nums|) && Sum(PartsOf(q', k)) == q'.rows[k].bytes
      && reply.bytes == q.rows[k].bytes
  {
    hide Sum, NextExpiry, AnyDue, Holds, IsOneTo, ValidPartList;
    AcceptedHasRow(q, Call.ClaimComplete(k, u, t, nums), now);
    var m := MarkExpired(q, now);
    assert PartsOf(m, k) == PartsOf(q, k);
    assert m.rows[k].bytes == q.rows[k].bytes;
  }

  lemma PartsRecorded(w: World, s: Step)
    requires s.CompleteRequest? && s.key in w.granted && s.key in w.made && w.made[s.key].uploadId == s.uploadId
    requires Answer(w, Call.ClaimComplete(s.key, s.uploadId, s.token, s.numbers)).Claimed?
    ensures PartsClaimed(CallQuota(w, Call.ClaimComplete(s.key, s.uploadId, s.token, s.numbers)), s.key, s.uploadId, s.numbers)
    ensures s.key in w.q.rows && Answer(w, Call.ClaimComplete(s.key, s.uploadId, s.token, s.numbers)).bytes == w.q.rows[s.key].bytes
  {
    hide Sum, Do, ValidPartList;
    ClaimedMeans(w.q, s.key, s.uploadId, s.token, s.numbers, w.clock);
  }

  lemma AbortStarts(w: World, s: Step)
    requires Inv(w) && s.AbortRequest?
    ensures Inv(StartAbort(w, s))
  {
    hide Inv, Do;
    var c := Call.ClaimAbort(s.key, s.uploadId, s.token);
    LoseIfUnheard(w, c);
    Called(w, c);
    ClaimAbortHeard(w, s.pid, s.key, s.uploadId, s.token);
  }

  lemma CleanupBegins(w: World, pid: nat, k: Key)
    requires Inv(w)
    ensures Inv(StartCleanup(w, pid, k))
  {
    hide Inv;
    if k in w.q.rows {
      RowGranted(w, k);
      SetProc(w, pid, CleanHead(k, w.q.rows[k]));
      SetProc(w, pid, CleanAbort(k, w.q.rows[k]));
    }
  }

  lemma ScanBegins(w: World, pid: nat, scan: nat)
    requires Inv(w)
    ensures Inv(StartScan(w, pid, scan))
  {
    hide Inv, Sum;
    var c := Call.ScanBegin(scan);
    Called(w, c);
    var m := CallQuota(w, c);
    if Answer(w, c).ScanOpen? {
      var p := Proc.Scanning(scan, w.q.mutation, w.clock, Start, Tally(0, 0, {}, true), w.bucket.Keys);
      assert SizesAt(m.born, {}) == map[];
      assert Sum(SizesAt(m.born, {})) == 0 by { SumDropEmpty(); }
      BucketBorn(w);
      assert ScanOk(m, p);
      SetProc(m, pid, p);
    }
  }

  lemma SumDropEmpty()
    ensures Sum<Key>(map[]) == 0
  {}

  lemma BucketBorn(w: World)
    requires Inv(w)
    ensures w.bucket.Keys <= w.born.Keys
    ensures forall k :: k in w.bucket ==> w.bucket[k] == w.born[k]
  {
    hide QInv, Budget, TasksOk, OpenOk, CoveredIn, RowsMatch, LedgerMatches;
  }

  function KeysOf(page: seq<Listed>): set<Key>
    decreases |page|
  {
    if page == [] then {} else {page[0].key} + KeysOf(page[1..])
  }

  lemma {:induction false} KeyListed(page: seq<Listed>, i: nat)
    requires i < |page|
    ensures page[i].key in KeysOf(page)
    decreases |page|
  {
    if i > 0 {
      assert page[i] == page[1..][i - 1];
      KeyListed(page[1..], i - 1);
    }
  }

  lemma SizesAtPut(born: map<Key, Obj>, keys: set<Key>, k: Key)
    requires keys <= born.Keys && k in born
    ensures Sum(SizesAt(born, keys + {k})) <= Sum(SizesAt(born, keys)) + born[k].size
    ensures |keys + {k}| <= |keys| + 1
  {
    hide Sum;
    SumPut(SizesAt(born, keys), k, born[k].size);
    assert SizesAt(born, keys + {k}) == SizesAt(born, keys)[k := born[k].size];
  }

  /** What one page adds: counted objects are summed, an early stop is above a
      ceiling. */
  lemma {:induction false} PageCounts(born: map<Key, Obj>, t: Tally, page: seq<Listed>)
    requires t.complete && t.keys <= born.Keys
    requires Sum(SizesAt(born, t.keys)) <= t.bytes && |t.keys| <= t.objects
    requires forall i :: 0 <= i < |page| ==> page[i].key in born && page[i].size == born[page[i].key].size
    ensures var t' := TallyPage(t, page);
      if t'.complete then
        && t'.keys == t.keys + KeysOf(page) && t'.keys <= born.Keys
        && Sum(SizesAt(born, t'.keys)) <= t'.bytes && |t'.keys| <= t'.objects
      else t'.bytes > STORAGE_BUDGET || t'.objects > MAX_GLOBAL_OBJECTS
    decreases |page|
  {
    hide Sum, SizesAt;
    if page != [] {
      var k := page[0].key;
      var u := Tally(t.bytes + page[0].size, t.objects + 1, t.keys + {k}, true);
      SizesAtPut(born, t.keys, k);
      if u.bytes <= STORAGE_BUDGET && u.objects <= MAX_GLOBAL_OBJECTS {
        PageCounts(born, u, page[1..]);
        assert u.keys + KeysOf(page[1..]) == t.keys + KeysOf(page);
      }
    }
  }

  lemma PageReadable(w: World, p: Proc, page: seq<Key>, to: Cursor)
    requires p.Scanning? && !ScanOver(p) && IsPage(w.bucket, p.cursor, page, to)
    requires ScanOk(w, p)
    requires w.bucket.Keys <= w.born.Keys && forall k :: k in w.bucket ==> w.bucket[k] == w.born[k]
    ensures ScanOk(w, p.(tally := TallyPage(p.tally, Listing(w.bucket, page)), cursor := to))
  {
    hide Sum, LexLe, Passed;
    var listed := Listing(w.bucket, page);
    PageCounts(w.born, p.tally, listed);
    forall k | k in w.bucket && k in p.since && Passed(to, k) ensures k in p.tally.keys + KeysOf(listed) {
      if !Passed(p.cursor, k) {
        var i :| 0 <= i < |page| && page[i] == k;
        KeyListed(listed, i);
      }
    }
  }

  lemma PageStored(bucket: map<Key, Obj>, from: Cursor, page: seq<Key>, to: Cursor)
    requires IsPage(bucket, from, page, to)
    ensures forall k :: k in page ==> k in bucket
  {}

  lemma ScanReadsPage(w: World, pid: nat, page: seq<Key>, to: Cursor)
    requires Inv(w) && pid in w.procs
    ensures Inv(Next(w, ScanReads(pid, page, to)))
  {
    hide Shared, Budget, ScanOk, ScanOver, IsPage;
    var p := w.procs[pid];
    assert ProcOk(w, p);
    if p.Scanning? && !ScanOver(p) && IsPage(w.bucket, p.cursor, page, to) {
      BucketBorn(w);
      PageReadable(w, p, page, to);
      assert forall k :: k in page ==> k in w.bucket by { PageStored(w.bucket, p.cursor, page, to); }
      SetProc(w, pid, p.(tally := TallyPage(p.tally, Listing(w.bucket, page)), cursor := to));
    }
  }

  lemma ScanFinishes(w: World, pid: nat)
    requires Inv(w) && pid in w.procs && ScanOver(w.procs[pid])
    ensures Inv(Ends(CallQuota(w, ApplyCall(w.procs[pid])), pid))
  {
    hide Shared, Budget, ScanOk, Do, Evolves;
    var p := w.procs[pid];
    assert ProcOk(w, p);
    ApplyKeeps(w, p);
    Moved(w, CallQuota(w, ApplyCall(p)));
    DropProc(CallQuota(w, ApplyCall(p)), pid);
  }

  // ---------------------------------------------------------------------------
  // Creating an upload

  lemma FreshStore(w: World, w': World, k: Key, up: Upload)
    requires k !in w.made && k !in w.born && StoreOk(w)
    requires w'.open == w.open[k := up] && w'.made == w.made[k := Owner(up.uploadId, up.actor)]
    requires w'.bucket == w.bucket && w'.start == w.start && w'.born == w.born && w'.granted == w.granted
    ensures StoreOk(w') && HistoryGrows(w, w') && StoreMoves(w, w')
  {}

  lemma FreshCreating(w: World, w': World, k: Key, r: Request)
    requires k !in w.made && r.size >= 1 && StoreOk(w) && CreatingOk(w)
    requires k in w'.made && w'.creating == w.creating[k := r] && w'.granted == w.granted
    requires forall j :: j in w.made ==> j in w'.made
    ensures CreatingOk(w')
  {}

  lemma FreshTables(w: World, w': World, k: Key, up: Upload, r: Request)
    requires k !in w.made && k !in w.born && up.parts == map[] && r.size >= 1
    requires w' == w.(open := w.open[k := up], made := w.made[k := Owner(up.uploadId, up.actor)], creating := w.creating[k := r])
    requires StoreOk(w)
    ensures RowsMatch(w) ==> RowsMatch(w')
    ensures LedgerMatches(w) ==> LedgerMatches(w')
    ensures CoveredIn(w) ==> CoveredIn(w')
    ensures Budget(w) ==> Budget(w')
  {
    hide Sum;
  }

  lemma FreshOpen(w: World, w': World, k: Key, up: Upload)
    requires k !in w.made && up.parts == map[] && StoreOk(w)
    requires w'.open == w.open[k := up] && w'.q == w.q && w'.granted == w.granted
    ensures OpenOk(w) ==> OpenOk(w')
  {
    hide Sum;
  }

  lemma CreateStarts(w: World, s: Step)
    requires Inv(w) && s.Create?
    ensures Inv(StartCreate(w, s))
  {
    hide QInv, StoreOk, CreatingOk, RowsMatch, LedgerMatches, OpenOk, CoveredIn, Budget, TasksOk, HistoryGrows,
         StoreMoves, RowsMove, ExpectedCipherBytes;
    if s.pid !in w.procs && s.key !in w.made && s.key !in w.born && 1 <= s.plaintextBytes <= MAX_PLAINTEXT_BLOB {
      var up := Upload(s.uploadId, s.actor, map[]);
      var r := Request(s.token, ExpectedCipherBytes(s.plaintextBytes));
      assert r.size >= 1 by { CipherPositive(s.plaintextBytes); }
      var m := w.(open := w.open[s.key := up], made := w.made[s.key := Owner(up.uploadId, up.actor)], creating := w.creating[s.key := r]);
      FreshStore(w, m, s.key, up);
      FreshCreating(w, m, s.key, r);
      FreshTables(w, m, s.key, up, r);
      FreshOpen(w, m, s.key, up);
      RowsStill(w, m);
      Moved(w, m);
      SetProc(m, s.pid, CreateWait(s.key));
      assert StartCreate(w, s) == At(m, s.pid, CreateWait(s.key));
    }
  }

  lemma CipherPositive(n: nat)
    requires n >= 1
    ensures ExpectedCipherBytes(n) >= 1
  {}

  lemma Granting(w: World, k: Key, asOf: int)
    requires Inv(w) && k in w.creating && k in w.made
    ensures Inv(Grant(w, k, asOf))
  {
    hide Shared, Budget, TasksOk, Do, Evolves;
    GrantKeeps(w, k, asOf);
    assert Inv(Grant(w, k, asOf)) by { Moved(w, Grant(w, k, asOf)); }
  }

  lemma ReserveAnswers(w: World, pid: nat, asOf: int)
    requires Inv(w)
    ensures Inv(ReturnReserve(w, pid, asOf))
  {
    hide Inv, Do, Grant;
    if pid in w.procs && w.procs[pid].CreateWait? && w.procs[pid].key in w.creating && w.procs[pid].key in w.made {
      var k := w.procs[pid].key;
      Granting(w, k, asOf);
      DropProc(Grant(w, k, asOf), pid);
      SetProc(Grant(w, k, asOf), pid, CreateAbort(k, w.made[k].uploadId));
    }
  }

  lemma LateKnown(w: World, s: Sent)
    requires Inv(w) && s in w.late
    ensures SentOk(w, s)
  {
    hide Shared, Budget;
  }

  lemma ClockPasses(w: World, ms: nat)
    requires Inv(w)
    ensures Inv(w.(clock := w.clock + ms))
  {
    hide Shared, Budget, ProcOk, SentOk, Evolves, StoreOk;
    var w' := w.(clock := w.clock + ms);
    TasksUnseen(w, w');
    assert Shared(w) && Shared(w');
    StoreOfShared(w);
    StoreOfShared(w');
    TasksStable(w, w');
  }

  lemma StoreOfShared(w: World)
    requires Shared(w)
    ensures StoreOk(w)
  {}

  /** Every step, by whomever it is taken, keeps the invariant. */
  lemma NextKeeps(w: World, s: Step)
    requires Inv(w)
    ensures Inv(Next(w, s))
  {
    hide Inv, Do, Advance, Land, Grant, StartCreate, StartPart, StartComplete, StartAbort, StartCleanup, StartScan,
         ReturnReserve, ScanOver, IsPage, SentOk, Delete, Abort;
    match s
    case Pass(ms) => ClockPasses(w, ms);
    case ExpireRows => Called(w, Tick);
    case Create(_, _, _, _, _, _) => CreateStarts(w, s);
    case ReserveReturns(pid, asOf) => ReserveAnswers(w, pid, asOf);
    case ReserveLands(k, asOf) => if k in w.creating && k in w.made { Granting(w, k, asOf); }
    case PartRequest(_, _, _, _, _, _, _) => PartStarts(w, s);
    case CompleteRequest(_, _, _, _, _, _) => CompleteStarts(w, s);
    case AbortRequest(_, _, _, _, _) => AbortStarts(w, s);
    case Act(pid, heard) => if pid in w.procs { ActKeeps(w, pid, heard); }
    case LandLate(sent) => if sent in w.late { LateKnown(w, sent); Landed(w, sent); }
    case CleanupStarts(pid, k) => CleanupBegins(w, pid, k);
    case ScanStarts(pid, scan) => ScanBegins(w, pid, scan);
    case ScanReads(pid, page, to) => if pid in w.procs { ScanReadsPage(w, pid, page, to); }
    case ScanEnds(pid) => if pid in w.procs && ScanOver(w.procs[pid]) { ScanFinishes(w, pid); }
    case ScanThrows(pid) =>
      if pid in w.procs && w.procs[pid].Scanning? {
        var c := Call.ScanFail(w.procs[pid].scan);
        Called(w, c);
        DropProc(CallQuota(w, c), pid);
      }
    case LifecycleDeletes(k) => Deleted(w, k);
    case LifecycleAborts(k, u) => Aborted(w, k, u);
  }

  lemma InitialOk(bucket: map<Key, Obj>, clock: int)
    ensures Inv(Initial(bucket, clock))
  {
    hide Sum;
    var w := Initial(bucket, clock);
    EmptyQuotaOk();
    assert Unreserved(w.bucket, w.q.rows) == Sizes(w.start);
    assert RowBytes(w.q.rows) == map[];
    assert Sum(RowBytes(w.q.rows)) == 0 by { SumDropEmpty(); }
  }

  lemma {:induction false} RunFromKeeps(w: World, steps: seq<Step>)
    requires Inv(w)
    ensures Inv(RunFrom(w, steps))
    decreases |steps|
  {
    hide Inv, Next;
    if steps != [] {
      NextKeeps(w, steps[0]);
      RunFromKeeps(Next(w, steps[0]), steps[1..]);
    }
  }

  /** The state after any run beside any initial bucket. */
  ghost function Reach(bucket: map<Key, Obj>, clock: int, steps: seq<Step>): World {
    RunFrom(Initial(bucket, clock), steps)
  }

  lemma Reached(bucket: map<Key, Obj>, clock: int, steps: seq<Step>)
    ensures Inv(Reach(bucket, clock, steps))
  {
    hide Inv, Initial;
    InitialOk(bucket, clock);
    RunFromKeeps(Initial(bucket, clock), steps);
  }
}
