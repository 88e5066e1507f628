/** The runs in which a receipt loses its object. */
module UploadOrphanRuns {
  import opened Sums
  import opened QuotaModel
  import opened QuotaInvariants
  import opened QuotaProtocol
  import opened UploadWorld
  import opened UploadSafety
  import opened UploadSteps
  import opened UploadOrphans
  import UploadTheorems

  // ---------------------------------------------------------------------------
  // The ways it happens

  /** A commit that comes after the row has gone into recovery changes no table. */
  lemma {:induction false} LateCommitRefused(q: Quota, k: Key, u: string, t: string, o: int, size: int, now: int)
    requires k in q.rows && q.rows[k].phase.CompletionCleanup? && k !in q.ledger
    ensures var (q', reply) := Do(q, Call.Commit(k, u, t, o, size), now); !reply.Accepted? && SameTables(q, q')
  {
    hide Promotable, Promote, ValidCall;
  }

  lemma {:induction false} SamePartsOk(a: Quota, b: Quota)
    requires PartsOk(a) && SameTables(a, b)
    ensures PartsOk(b)
  {
    AlarmIrrelevant(a, a, b);
  }

  /** The worker is about to commit the upload, as the only call it still makes. */
  predicate Commits(p: Proc, k: Key) { p.Committing? && p.key == k && !p.viaHead }

  /** The worker's commit comes too late, so it turns to deleting the object. */
  lemma {:induction false} WorkerTurnsToDelete(w: World, k: Key, r: Row, pid: nat, p: Proc) returns (p': Proc)
    requires Ready(w, k, r) && IsAt(w, pid, p) && Commits(p, k)
    ensures var v := Next(w, Act(pid, true));
      v == w.(q := v.q, procs := w.procs[pid := p']) && Ready(v, k, r) && p'.DeleteObject? && Deleting(p', k)
  {
    hide Next, Advance, Do, PartsOk;
    p' := DeleteObject(k, p.uploadId, p.token, p.op);
    ActAdvances(w, pid, p, true);
    CommittingAct(w, pid, p, true);
    LateCommitRefused(w.q, k, p.uploadId, p.token, p.op, p.size, w.clock);
    SamePartsOk(w.q, Next(w, Act(pid, true)).q);
  }

  /** The commit arrives when the claim's grace period is over, and a cleanup starts. */
  function Race(k: Key, ms: nat, pid: nat, c: nat): seq<Step> {
    [Pass(ms), ExpireRows, Act(pid, true), CleanupStarts(c, k), Act(c, true)]
  }

  ghost predicate Waiting(w: World, k: Key, ms: nat, pid: nat, p: Proc, c: nat) {
    ClaimedUntil(w, k, w.clock + ms) && IsAt(w, pid, p) && Commits(p, k) && c !in w.procs
  }

  lemma {:induction false} RaceRuns(w: World, k: Key, ms: nat, pid: nat, p: Proc, c: nat) returns (r: Row, p': Proc)
    requires Inv(w) && Waiting(w, k, ms, pid, p, c)
    ensures Racing(RunFrom(w, Race(k, ms, pid, c)), k, r, pid, p', c) && p'.DeleteObject?
  {
    hide Inv, Next, PartsOk, RunFrom, ClaimedUntil;
    FiveSteps(w, Pass(ms), ExpireRows, Act(pid, true), CleanupStarts(c, k), Act(c, true));
    r := BecomesReady(w, k, ms);
    var v := Next(Next(w, Pass(ms)), ExpireRows);
    p' := WorkerTurnsToDelete(v, k, r, pid, p);
    CleanupFinds(Next(v, Act(pid, true)), k, r, c);
  }

  /** One cleanup is enough: it promotes the row, then the worker's delete lands. */
  lemma {:induction false} OneCleanupLoses(w: World, k: Key, ms: nat, pid: nat, p: Proc, c: nat)
    requires Inv(w) && Waiting(w, k, ms, pid, p, c)
    ensures Orphan(RunFrom(w, Race(k, ms, pid, c) + ([Act(c, true)] + Acts(pid, 1))), k)
  {
    hide Inv, Next, RunFrom, Race, Waiting, Orphan, Racing;
    var r, p' := RaceRuns(w, k, ms, pid, p, c);
    RunFromAppend(w, Race(k, ms, pid, c), [Act(c, true)] + Acts(pid, 1));
    RunFromKeeps(w, Race(k, ms, pid, c));
    RaceLost(RunFrom(w, Race(k, ms, pid, c)), k, r, pid, p', c);
  }

  lemma {:induction false} TwoMore(w: World, steps: seq<Step>, a: Step, b: Step)
    ensures RunFrom(w, steps + [a, b]) == Next(Next(RunFrom(w, steps), a), b)
  {
    hide Next;
    RunFromAppend(w, steps, [a, b]);
    assert [a, b][1..] == [b] && [b][1..] == [];
    assert RunFrom(Next(RunFrom(w, steps), a), [b]) == Next(Next(RunFrom(w, steps), a), b);
  }

  /** The two outcomes of a delete. */
  lemma {:induction false} DeletingAct(w: World, pid: nat, p: Proc, k: Key) returns (x: Proc, y: Proc)
    requires IsAt(w, pid, p) && Deleting(p, k)
    ensures Next(w, Act(pid, true)) == At(Delete(w, k), pid, x)
    ensures Next(w, Act(pid, false)) == At(Lost(w, ToDelete(k)), pid, y)
  {
    hide At, Delete, Lost;
    if p.DeleteObject? {
      x, y := ReleaseDeleted(k, p.uploadId, p.token, p.op), DeferCompleted(k, p.uploadId, p.token, p.op);
    } else {
      x, y := CleanFinish(k, p.row), CleanRetry(k, p.row);
    }
  }

  /** The other order: the worker deletes the object, and then the cleanup, which saw it,
      writes the receipt. */
  lemma {:induction false} RecordedTooLate(w: World, k: Key, ms: nat, pid: nat, p: Proc, c: nat)
    requires Inv(w) && Waiting(w, k, ms, pid, p, c)
    ensures Orphan(RunFrom(w, Race(k, ms, pid, c) + [Act(pid, true), Act(c, true)]), k)
  {
    hide Inv, Next, PartsOk, RunFrom, Race, Waiting, Deleting;
    var r, p' := RaceRuns(w, k, ms, pid, p, c);
    var v := RunFrom(w, Race(k, ms, pid, c));
    TwoMore(w, Race(k, ms, pid, c), Act(pid, true), Act(c, true));
    SureDelete(p', k);
    var x, _ := DeletingAct(v, pid, p', k);
    CleanupPromotes(Next(v, Act(pid, true)), k, r, c);
  }

  lemma {:induction false} SureDelete(p: Proc, k: Key)
    requires Sure(p, k) && p.DeleteObject?
    ensures Deleting(p, k)
  {}

  /** The worker's delete may also be lost, and land long after the promotion. */
  lemma {:induction false} LateDeleteLoses(w: World, k: Key, ms: nat, pid: nat, p: Proc, c: nat)
    requires Inv(w) && Waiting(w, k, ms, pid, p, c)
    ensures Orphan(RunFrom(w, Race(k, ms, pid, c) + [Act(pid, false), Act(c, true)] + [LandLate(ToDelete(k))]), k)
  {
    hide Inv, Next, PartsOk, RunFrom, Race, Waiting, Deleting, Orphan;
    var r, p' := RaceRuns(w, k, ms, pid, p, c);
    var v := RunFrom(w, Race(k, ms, pid, c));
    var steps := Race(k, ms, pid, c) + [Act(pid, false), Act(c, true)];
    TwoMore(w, Race(k, ms, pid, c), Act(pid, false), Act(c, true));
    SureDelete(p', k);
    var _, y := DeletingAct(v, pid, p', k);
    CleanupPromotes(Next(v, Act(pid, false)), k, r, c);
    var z := RunFrom(w, steps);
    RunFromAppend(w, steps, [LandLate(ToDelete(k))]);
    RunFromFirst(z, LandLate(ToDelete(k)), []);
    assert [LandLate(ToDelete(k))] + [] == [LandLate(ToDelete(k))];
    NothingLeft(Next(z, LandLate(ToDelete(k))));
    StepBucket(z, LandLate(ToDelete(k)), k);
    RemovingLeavesQuota(z, LandLate(ToDelete(k)), k);
    OrphanIs(Next(z, LandLate(ToDelete(k))), k);
  }

  // ---------------------------------------------------------------------------
  // ... from the fresh system

  /** A baseline scan of the empty bucket, then one upload of one plaintext byte, up to
      where R2 has made the object and the worker is about to commit. */
  const UPLOADED: seq<Step> := [
    ScanStarts(0, 1), ScanReads(0, [], End), ScanEnds(0),
    Create(0, KEY, UPLOAD_ID, TOKEN, ACTOR, 1), ReserveReturns(0, 0),
    PartRequest(0, KEY, UPLOAD_ID, TOKEN, 1, 29, true), Act(0, true),
    CompleteRequest(0, KEY, UPLOAD_ID, TOKEN, [1], true), Act(0, true)]

  const COMMITTER := Committing(KEY, UPLOAD_ID, TOKEN, 1, 29, false, false)

  /** Nothing stored, the counters known. */
  ghost predicate Scanned(w: World) {
    && w.q == COUNTED && w.clock == 0
    && w.open == map[] && w.bucket == map[] && w.procs == map[] && w.late == {}
    && w.made == map[] && w.born == map[] && w.creating == map[]
  }

  const SCANNER := Proc.Scanning(1, 0, 0, Start, Tally(0, 0, {}, true), {})

  const LOCKED := EMPTY_QUOTA.(scanToken := Some(1), lockUntil := 300_000)

  lemma {:induction false} ScanOpens()
    ensures var w := Initial(map[], 0);
      Next(w, ScanStarts(0, 1)) == w.(q := LOCKED, procs := map[0 := SCANNER])
  {
    var w := Initial(map[], 0);
    hide NextExpiry;
    assert Do(w.q, Call.ScanBegin(1), 0) == (LOCKED, ScanOpen(0));
    assert w.bucket.Keys == {};
  }

  lemma {:induction false} ScanReadsNothing(w: World)
    requires w.bucket == map[] && w.procs == map[0 := SCANNER]
    ensures Next(w, ScanReads(0, [], End)) == w.(procs := map[0 := SCANNER.(cursor := End)])
  {
    hide Do;
    assert Listing(w.bucket, []) == [];
  }

  lemma {:induction false} ScanApplies(w: World)
    requires w.q == LOCKED && w.clock == 0 && w.procs == map[0 := SCANNER.(cursor := End)]
    ensures Next(w, ScanEnds(0)) == w.(q := COUNTED, procs := map[])
  {
    var c := ApplyCall(SCANNER.(cursor := End));
    var q := Do(w.q, c, 0).0;
    assert q.ledger == map[];
    assert map[0 := SCANNER.(cursor := End)] - {0} == map[];
  }

  lemma {:induction false} ScanFirst()
    ensures Scanned(Next(Next(Next(Initial(map[], 0), ScanStarts(0, 1)), ScanReads(0, [], End)), ScanEnds(0)))
  {
    hide Next;
    ScanOpens();
    var w := Next(Initial(map[], 0), ScanStarts(0, 1));
    ScanReadsNothing(w);
    ScanApplies(Next(w, ScanReads(0, [], End)));
  }

  /** One open upload with its reservation. */
  ghost predicate Reserving(w: World) {
    && w.q.rows == map[KEY := FRESH_ROW] && w.q.ledger == map[] && w.q.parts == map[] && w.clock == 0
    && w.open == map[KEY := Upload(UPLOAD_ID, ACTOR, map[])] && w.bucket == map[] && w.procs == map[] && w.late == {}
  }

  lemma {:induction false} CreateFirst(w: World)
    requires Scanned(w)
    ensures var v := Next(w, Create(0, KEY, UPLOAD_ID, TOKEN, ACTOR, 1));
      v == w.(open := map[KEY := Upload(UPLOAD_ID, ACTOR, map[])], made := map[KEY := Owner(UPLOAD_ID, ACTOR)],
              creating := map[KEY := Request(TOKEN, 29)], procs := map[0 := CreateWait(KEY)])
  {
    hide Do;
  }

  lemma {:induction false} ReserveFirst(w: World)
    requires w.q == COUNTED && w.clock == 0 && w.bucket == map[] && w.late == {}
    requires w.open == map[KEY := Upload(UPLOAD_ID, ACTOR, map[])] && w.made == map[KEY := Owner(UPLOAD_ID, ACTOR)]
    requires w.creating == map[KEY := Request(TOKEN, 29)] && w.procs == map[0 := CreateWait(KEY)]
    ensures Reserving(Next(w, ReserveReturns(0, 0)))
  {
    hide Do;
    FirstReserved();
  }

  const PARTS: map<int, nat> := map[1 := 29]

  lemma {:induction false} OnePart()
    ensures Sum(PARTS) == 29 && IsOneTo(PARTS.Keys, 1) && ValidPartList([1])
    ensures Sum<int>(map[]) == 0
  {
    SumPut(map[], 1, 29);
    assert PARTS == map[][1 := 29];
  }

  lemma {:induction false} NothingMarked(q: Quota, r: Row)
    requires q.rows == map[KEY := r] && r.expiresAt > 0
    ensures MarkExpired(q, 0) == q
  {}

  lemma {:induction false} FirstPart(q: Quota)
    requires q.rows == map[KEY := FRESH_ROW] && q.parts == map[] && q.ledger == map[]
    ensures var (q', reply) := Do(q, Call.ReservePart(KEY, UPLOAD_ID, TOKEN, 1, 29), 0);
      reply.Accepted? && q'.rows == q.rows && q'.parts == map[KEY := PARTS] && q'.ledger == map[]
  {
    hide Sum, MarkExpired, NextExpiry, ValidToken;
    Constants();
    OnePart();
    NothingMarked(q, FRESH_ROW);
  }

  lemma {:induction false} FirstClaim(q: Quota)
    requires q.rows == map[KEY := FRESH_ROW] && q.parts == map[KEY := PARTS] && q.ledger == map[]
    ensures var (q', reply) := Do(q, Call.ClaimComplete(KEY, UPLOAD_ID, TOKEN, [1]), 0);
      reply == Claimed(29, 1) && q'.rows == map[KEY := CLAIMED_ROW] && q'.parts == q.parts && q'.ledger == map[]
  {
    hide Sum, MarkExpired, NextExpiry, ValidToken, IsOneTo, ValidPartList;
    Constants();
    OnePart();
    NothingMarked(q, FRESH_ROW);
  }

  const CLAIMED_ROW := Row(UPLOAD_ID, TOKEN, ACTOR, 29, 900_000, Completing, 1, 0)

  lemma {:induction false} PartFirst(w: World)
    requires Reserving(w)
    ensures var v := Next(w, PartRequest(0, KEY, UPLOAD_ID, TOKEN, 1, 29, true));
      && v == w.(q := v.q, procs := map[0 := PartUpload(KEY, UPLOAD_ID, TOKEN, 1, 29)])
      && v.q.rows == w.q.rows && v.q.parts == map[KEY := PARTS] && v.q.ledger == map[]
  {
    hide Do;
    FirstPart(w.q);
  }

  lemma {:induction false} PartPut(w: World)
    requires IsOpen(w, KEY, UPLOAD_ID)
    ensures Advance(w, 0, PartUpload(KEY, UPLOAD_ID, TOKEN, 1, 29), true) == Ends(PutPart(w, KEY, UPLOAD_ID, 1, 29), 0)
  {
    hide IsOpen, Ends, PutPart;
  }

  lemma {:induction false} PartStored(w: World)
    requires w.procs == map[0 := PartUpload(KEY, UPLOAD_ID, TOKEN, 1, 29)]
    requires w.open == map[KEY := Upload(UPLOAD_ID, ACTOR, map[])]
    ensures Next(w, Act(0, true)) == w.(open := map[KEY := Upload(UPLOAD_ID, ACTOR, PARTS)], procs := map[])
  {
    hide Do, Next, Advance;
    var p := PartUpload(KEY, UPLOAD_ID, TOKEN, 1, 29);
    ActAdvances(w, 0, p, true);
    assert Advance(w, 0, p, true) == Ends(PutPart(w, KEY, UPLOAD_ID, 1, 29), 0) by { PartPut(w); }
    assert map[0 := p] - {0} == map[];
    assert map[][1 := 29] == PARTS;
    assert map[KEY := Upload(UPLOAD_ID, ACTOR, map[])][KEY := Upload(UPLOAD_ID, ACTOR, PARTS)] == map[KEY := Upload(UPLOAD_ID, ACTOR, PARTS)];
  }

  lemma {:induction false} ClaimFirst(w: World)
    requires w.q.rows == map[KEY := FRESH_ROW] && w.q.parts == map[KEY := PARTS] && w.q.ledger == map[]
    requires w.clock == 0 && w.procs == map[]
    ensures var v := Next(w, CompleteRequest(0, KEY, UPLOAD_ID, TOKEN, [1], true));
      && v == w.(q := v.q, procs := map[0 := CompleteUpload(KEY, UPLOAD_ID, TOKEN, 1, 29, [1])])
      && v.q.rows == map[KEY := CLAIMED_ROW] && v.q.parts == map[KEY := PARTS] && v.q.ledger == map[]
  {
    hide Do;
    FirstClaim(w.q);
  }

  lemma {:induction false} AssembledOnce()
    ensures Assembled(Upload(UPLOAD_ID, ACTOR, PARTS), [1]) == Obj(ACTOR, 29)
  {
    OnePart();
    var up := Upload(UPLOAD_ID, ACTOR, PARTS);
    assert (map n | n in up.parts && n in [1] :: up.parts[n]) == PARTS;
  }

  lemma {:induction false} ObjectMade(w: World)
    requires w.procs == map[0 := CompleteUpload(KEY, UPLOAD_ID, TOKEN, 1, 29, [1])] && w.bucket == map[]
    requires w.open == map[KEY := Upload(UPLOAD_ID, ACTOR, PARTS)]
    ensures var v := Next(w, Act(0, true));
      v.q == w.q && v.clock == w.clock && v.late == w.late && v.bucket == map[KEY := Obj(ACTOR, 29)] && v.procs == map[0 := COMMITTER]
  {
    hide Do, Sum, Assembled, Next, Advance;
    AssembledOnce();
    ActAdvances(w, 0, CompleteUpload(KEY, UPLOAD_ID, TOKEN, 1, 29, [1]), true);
    CompletionAct(w, 0, w.procs[0]);
    assert CanComplete(w, KEY, UPLOAD_ID, [1]);
  }

  /** The upload as the worker is about to commit it. */
  lemma {:induction false} UploadedState()
    ensures var w := Reach(map[], 0, UPLOADED);
      && w.clock == 0 && w.bucket == map[KEY := Obj(ACTOR, 29)] && w.procs == map[0 := COMMITTER]
      && w.q.rows == map[KEY := CLAIMED_ROW] && w.q.parts == map[KEY := PARTS] && w.q.ledger == map[]
  {
    hide Next, Scanned, RunFrom;
    var w0 := Initial(map[], 0);
    var a := [ScanStarts(0, 1), ScanReads(0, [], End), ScanEnds(0), Create(0, KEY, UPLOAD_ID, TOKEN, ACTOR, 1), ReserveReturns(0, 0)];
    var b := [PartRequest(0, KEY, UPLOAD_ID, TOKEN, 1, 29, true), Act(0, true)];
    var c := [CompleteRequest(0, KEY, UPLOAD_ID, TOKEN, [1], true), Act(0, true)];
    assert UPLOADED == a + b + c;
    FiveSteps(w0, a[0], a[1], a[2], a[3], a[4]);
    TwoMore(w0, a, b[0], b[1]);
    TwoMore(w0, a + b, c[0], c[1]);
    ScanFirst();
    var w3 := Next(Next(Next(w0, a[0]), a[1]), a[2]);
    CreateFirst(w3);
    ReserveNext(w3);
    var w5 := Next(Next(w3, a[3]), a[4]);
    PartFirst(w5);
    PartStored(Next(w5, b[0]));
    var w7 := Next(Next(w5, b[0]), b[1]);
    ClaimFirst(w7);
    ObjectMade(Next(w7, c[0]));
  }

  lemma {:induction false} ReserveNext(w: World)
    requires Scanned(w)
    ensures Reserving(Next(Next(w, Create(0, KEY, UPLOAD_ID, TOKEN, ACTOR, 1)), ReserveReturns(0, 0)))
  {
    hide Next, Reserving;
    CreateFirst(w);
    ReserveFirst(Next(w, Create(0, KEY, UPLOAD_ID, TOKEN, ACTOR, 1)));
  }

  lemma {:induction false} CommitterAccepted(w: World)
    requires PartsOk(w.q) && w.clock == 0 && w.q.rows == map[KEY := CLAIMED_ROW] && w.q.ledger == map[]
    requires w.bucket == map[KEY := Obj(ACTOR, 29)] && w.procs == map[0 := COMMITTER]
    ensures Recorded(Next(w, Act(0, true)), KEY)
  {
    hide Do, PartsOk, Next, Advance, ValidToken;
    Constants();
    ActAdvances(w, 0, COMMITTER, true);
    CommittingAct(w, 0, COMMITTER, true);
    CommitAcceptedExactly(w.q, KEY, UPLOAD_ID, TOKEN, 1, 29, w.clock);
  }

  /** Five runs from the fresh system end with a receipt whose object is gone: two
      overlapping cleanups; one cleanup and a worker that commits too late, in either
      order; a worker's delete that lands late; and R2's lifecycle rule. */
  lemma {:induction false} EachWayHappens()
    ensures Orphan(Reach(map[], 0, UPLOADED + (TwoCleanups(KEY, 900_000, 1, 2) + ([Act(1, true)] + Acts(2, 3)))), KEY)
    ensures Orphan(Reach(map[], 0, UPLOADED + (Race(KEY, 900_000, 0, 1) + ([Act(1, true)] + Acts(0, 1)))), KEY)
    ensures Orphan(Reach(map[], 0, UPLOADED + (Race(KEY, 900_000, 0, 1) + [Act(0, true), Act(1, true)])), KEY)
    ensures Orphan(Reach(map[], 0, UPLOADED + (Race(KEY, 900_000, 0, 1) + [Act(0, false), Act(1, true)] + [LandLate(ToDelete(KEY))])), KEY)
    ensures Orphan(Reach(map[], 0, UPLOADED + [Act(0, true), LifecycleDeletes(KEY)]), KEY)
  {
    hide Inv, Next, RunFrom, Orphan, Race, TwoCleanups, PartsOk, Initial;
    UploadedState();
    Reached(map[], 0, UPLOADED);
    var w0 := Initial(map[], 0);
    var w := Reach(map[], 0, UPLOADED);
    assert KEY in w.bucket && KEY in w.q.rows;
    TwoCleanupsLose(w, KEY, 900_000, 1, 2);
    RunFromAppend(w0, UPLOADED, TwoCleanups(KEY, 900_000, 1, 2) + ([Act(1, true)] + Acts(2, 3)));
    OneCleanupLoses(w, KEY, 900_000, 0, COMMITTER, 1);
    RunFromAppend(w0, UPLOADED, Race(KEY, 900_000, 0, 1) + ([Act(1, true)] + Acts(0, 1)));
    RecordedTooLate(w, KEY, 900_000, 0, COMMITTER, 1);
    RunFromAppend(w0, UPLOADED, Race(KEY, 900_000, 0, 1) + [Act(0, true), Act(1, true)]);
    LateDeleteLoses(w, KEY, 900_000, 0, COMMITTER, 1);
    RunFromAppend(w0, UPLOADED, Race(KEY, 900_000, 0, 1) + [Act(0, false), Act(1, true)] + [LandLate(ToDelete(KEY))]);
    LifecycleLoses(w);
    TwoMore(w0, UPLOADED, Act(0, true), LifecycleDeletes(KEY));
  }

  lemma {:induction false} LifecycleLoses(w: World)
    requires Inv(w) && w.clock == 0 && w.q.rows == map[KEY := CLAIMED_ROW] && w.q.ledger == map[]
    requires w.bucket == map[KEY := Obj(ACTOR, 29)] && w.procs == map[0 := COMMITTER]
    ensures Orphan(Next(Next(w, Act(0, true)), LifecycleDeletes(KEY)), KEY)
  {
    hide Inv, Next, PartsOk;
    UploadTheorems.PartsOfReached(w);
    CommitterAccepted(w);
    StepBucket(Next(w, Act(0, true)), LifecycleDeletes(KEY), KEY);
    RemovingLeavesQuota(Next(w, Act(0, true)), LifecycleDeletes(KEY), KEY);
  }
}
