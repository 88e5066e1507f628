/** How uploads begin and end when their tasks are heard: creation, parts, aborts, lost
    commits and the cleanup, from every reachable state. */
module UploadEndings {
  import opened Sums
  import opened QuotaModel
  import opened QuotaInvariants
  import opened QuotaProtocol
  import opened QuotaAnswers
  import opened BlobLength
  import opened UploadWorld
  import opened UploadSafety
  import opened UploadSteps
  import opened UploadProgress
  import UploadTheorems

  // ---------------------------------------------------------------------------
  // A lost commit

  /** A commit whose answer is lost is sent once more, and the worker still answers 204,
      whether the first one has not arrived yet or has landed in between. */
  lemma {:induction false} LostCommitIsRepeated(bucket: map<Key, Obj>, clock: int, steps: seq<Step>, pid: nat,
                                                k: Key, u: string, t: string, o: nat, size: nat, viaHead: bool)
    requires var w := Reach(bucket, clock, steps);
      && IsAt(w, pid, Committing(k, u, t, o, size, viaHead, false)) && ClaimStands(w.q, k, u, t, o) && k in w.bucket
      && w.clock < w.q.rows[k].expiresAt && w.q.rows[k].bytes == size && o <= 0x1F_FFFF_FFFF_FFFF
    ensures var w := Reach(bucket, clock, steps); var lost := ToQuota(Call.Commit(k, u, t, o, size));
      && Finished(RunFrom(w, [Act(pid, false), Act(pid, true)]), pid, k, u, t, o, size)
      && lost in RunFrom(w, [Act(pid, false), Act(pid, true)]).late
      && Finished(RunFrom(w, [Act(pid, false), LandLate(lost), Act(pid, true)]), pid, k, u, t, o, size)
  {
    hide Reach, Inv, Grounded, RunFrom, Next, Finished, ValidToken, ValidCall;
    var w, c := Reach(bucket, clock, steps), Call.Commit(k, u, t, o, size);
    ReachedGrounded(bucket, clock, steps);
    TwoSteps(w, Act(pid, false), Act(pid, true));
    ThreeSteps(w, Act(pid, false), LandLate(ToQuota(c)), Act(pid, true));
    GoodToken(w, k);
    CommitFacts(w, k, u, t, o);
    CommitUnheard(w, pid, k, u, t, o, size, viaHead);
    var v := Next(w, Act(pid, false));
    NextKeeps(w, Act(pid, false));
    CommitFinishes(v, pid, k, u, t, o, size, viaHead, true);
    LateStays(v, pid, ToQuota(c));
    CommitLandsFirst(v, pid, k, u, t, o, size, viaHead);
  }

  lemma {:induction false} CommitFacts(w: World, k: Key, u: string, t: string, o: nat)
    requires Inv(w) && ClaimStands(w.q, k, u, t, o) && k in w.bucket && ValidToken(t) && o <= 0x1F_FFFF_FFFF_FFFF
    ensures w.bucket[k].size == w.q.rows[k].bytes && k !in w.open && ValidCall(Call.Commit(k, u, t, o, w.q.rows[k].bytes))
  {
    hide Inv, PartsOk, ValidToken, Full;
    UploadTheorems.PartsOfReached(w);
    ClaimedRowFacts(w.q, k);
    RowGranted(w, k);
    StoredIs(w, k);
    if k in w.open { OpenHasNoObject(w, k); }
  }

  lemma {:induction false} CommitUnheard(w: World, pid: nat, k: Key, u: string, t: string, o: nat, size: nat, viaHead: bool)
    requires IsAt(w, pid, Committing(k, u, t, o, size, viaHead, false))
    ensures Next(w, Act(pid, false)) ==
      w.(late := w.late + {ToQuota(Call.Commit(k, u, t, o, size))}, procs := w.procs[pid := Committing(k, u, t, o, size, viaHead, true)])
  {
    hide Next, Advance;
    var p := Committing(k, u, t, o, size, viaHead, false);
    ActAdvances(w, pid, p, false);
    CommittingAct(w, pid, p, false);
  }

  lemma {:induction false} LateStays(w: World, pid: nat, x: Sent)
    requires x in w.late
    ensures x in Next(w, Act(pid, true)).late
  {
    hide At, Ends, CallQuota, Abort, Delete, PutPart, Complete, Answer, Assembled, CanComplete, IsOpen;
    MovesLate();
  }

  /** The lost commit lands; the repeated one finds the receipt. */
  lemma {:induction false} CommitLandsFirst(w: World, pid: nat, k: Key, u: string, t: string, o: nat, size: nat, viaHead: bool)
    requires Inv(w) && IsAt(w, pid, Committing(k, u, t, o, size, viaHead, true)) && ToQuota(Call.Commit(k, u, t, o, size)) in w.late
    requires ClaimStands(w.q, k, u, t, o) && w.clock < w.q.rows[k].expiresAt && w.q.rows[k].bytes == size
    requires k in w.bucket && w.bucket[k].size == size && k !in w.open && ValidCall(Call.Commit(k, u, t, o, size))
    ensures Finished(Next(Next(w, LandLate(ToQuota(Call.Commit(k, u, t, o, size)))), Act(pid, true)), pid, k, u, t, o, size)
  {
    hide Inv, Next, Advance, Do, PartsOk, ValidCall;
    var c, p := Call.Commit(k, u, t, o, size), Committing(k, u, t, o, size, viaHead, true);
    UploadTheorems.PartsOfReached(w);
    KeyFacts(w, k);
    CommitAcceptedExactly(w.q, k, u, t, o, size, w.clock);
    AcceptedCommitDrops(w.q, k, u, t, o, size, w.clock);
    CallLands(w, c);
    var v := Next(w, LandLate(ToQuota(c)));
    CommitRetryIdempotent(v.q, k, u, t, o, size, v.clock);
    ActAdvances(v, pid, p, true);
    CommittingAct(v, pid, p, true);
  }

  lemma {:induction false} CallLands(w: World, c: Call)
    requires ToQuota(c) in w.late
    ensures Next(w, LandLate(ToQuota(c))) == w.(q := Do(w.q, c, w.clock).0)
  {
    hide Do;
  }

  // ---------------------------------------------------------------------------
  // A complete whose answer is lost

  /** R2 never answers the complete. If the call has not arrived the client's retry
      completes the upload; if it lands before the worker asks, the worker finds the object
      and records it without a retry. */
  lemma {:induction false} UnansweredCompleteEnds(bucket: map<Key, Obj>, clock: int, steps: seq<Step>, pid: nat,
                                                  k: Key, u: string, t: string, o: nat, bytes: nat, nums: seq<int>)
    requires var w := Reach(bucket, clock, steps);
      && IsAt(w, pid, CompleteUpload(k, u, t, o, bytes, nums)) && ClaimStands(w.q, k, u, t, o) && HoldsAll(w, k, u, nums)
      && w.clock < w.q.rows[k].expiresAt && o < 0x1F_FFFF_FFFF_FFFF
    ensures var w, retry, lost := Reach(bucket, clock, steps), CompleteRequest(pid, k, u, t, nums, true), ToComplete(k, u, nums);
      && Finished(RunFrom(w, [Act(pid, false)] + [Act(pid, true), Act(pid, true), retry, Act(pid, true), Act(pid, true)]),
                  pid, k, u, t, o + 1, bytes)
      && Finished(RunFrom(w, [Act(pid, false), LandLate(lost)] + Acts(pid, 2)), pid, k, u, t, o, bytes)
  {
    hide Reach, Inv, RunFrom, Next, Finished, HoldsAll;
    var w := Reach(bucket, clock, steps);
    var retry := [Act(pid, true), Act(pid, true), CompleteRequest(pid, k, u, t, nums, true), Act(pid, true), Act(pid, true)];
    var first, both := [Act(pid, false)], [Act(pid, false), LandLate(ToComplete(k, u, nums))];
    Reached(bucket, clock, steps);
    CompleteUnheard(w, pid, k, u, t, o, bytes, nums);
    ReachedThen(bucket, clock, steps, first);
    OneStep(w, Act(pid, false));
    SameHolds(w, Next(w, Act(pid, false)), k, u, nums);
    FailedCompleteIsRetried(bucket, clock, steps + first, pid, k, u, t, o, bytes, nums);
    RunFromAppend(w, first, retry);
    ReachedThen(bucket, clock, steps, both);
    TwoSteps(w, Act(pid, false), LandLate(ToComplete(k, u, nums)));
    CompleteLands(Next(w, Act(pid, false)), k, u, nums);
    LostAnswerCompletes(bucket, clock, steps + both, pid, k, u, t, o, bytes);
    RunFromAppend(w, both, Acts(pid, 2));
  }

  lemma {:induction false} ReachedThen(bucket: map<Key, Obj>, clock: int, steps: seq<Step>, more: seq<Step>)
    ensures Reach(bucket, clock, steps + more) == RunFrom(Reach(bucket, clock, steps), more)
  {
    hide RunFrom, Initial;
    RunFromAppend(Initial(bucket, clock), steps, more);
  }

  lemma {:induction false} OneStep(w: World, a: Step)
    ensures RunFrom(w, [a]) == Next(w, a)
  {
    hide Next;
    assert [a][1..] == [];
  }

  lemma {:induction false} CompleteUnheard(w: World, pid: nat, k: Key, u: string, t: string, o: nat, bytes: nat, nums: seq<int>)
    requires IsAt(w, pid, CompleteUpload(k, u, t, o, bytes, nums))
    ensures Next(w, Act(pid, false)) ==
      w.(late := w.late + {ToComplete(k, u, nums)}, procs := w.procs[pid := HeadCheck(k, u, t, o, bytes)])
  {
    hide Next, Advance;
    ActAdvances(w, pid, CompleteUpload(k, u, t, o, bytes, nums), false);
    UnheardAdvance(w, pid, k, u, t, o, bytes, nums);
  }

  lemma {:induction false} UnheardAdvance(w: World, pid: nat, k: Key, u: string, t: string, o: nat, bytes: nat, nums: seq<int>)
    ensures Advance(w, pid, CompleteUpload(k, u, t, o, bytes, nums), false) ==
      At(Lost(w, ToComplete(k, u, nums)), pid, HeadCheck(k, u, t, o, bytes))
  {
    hide At, Lost;
  }

  lemma {:induction false} SameHolds(w: World, v: World, k: Key, u: string, nums: seq<int>)
    requires HoldsAll(w, k, u, nums) && v.open == w.open && v.q == w.q
    ensures HoldsAll(v, k, u, nums) && CanComplete(v, k, u, nums)
  {}

  lemma {:induction false} CompleteLands(w: World, k: Key, u: string, nums: seq<int>)
    requires ToComplete(k, u, nums) in w.late && CanComplete(w, k, u, nums)
    ensures var v := Next(w, LandLate(ToComplete(k, u, nums)));
      v.q == w.q && v.procs == w.procs && v.clock == w.clock && k in v.bucket
  {
    hide Assembled, CanComplete;
    assert Next(w, LandLate(ToComplete(k, u, nums))) == Complete(w, k, u, nums);
  }

  // ---------------------------------------------------------------------------
  // A commit that comes too late

  /** What a refused worker does next. */
  lemma {:induction false} DeleteAdvance(w: World, pid: nat, k: Key, u: string, t: string, o: nat, heard: bool)
    ensures Advance(w, pid, DeleteObject(k, u, t, o), heard) ==
      if heard then At(Delete(w, k), pid, ReleaseDeleted(k, u, t, o)) else At(Lost(w, ToDelete(k)), pid, DeferCompleted(k, u, t, o))
    ensures Advance(w, pid, ReleaseDeleted(k, u, t, o), heard) ==
      if heard then Ends(CallQuota(w, Call.Release(k, u, t)), pid)
      else At(Lost(w, ToQuota(Call.Release(k, u, t))), pid, DeferCompleted(k, u, t, o))
  {
    hide At, Ends, Lost, Delete, CallQuota;
  }

  lemma {:induction false} LateCommitRefused(w: World, pid: nat, k: Key, u: string, t: string, o: nat, size: nat, viaHead: bool, again: bool)
    requires IsAt(w, pid, Committing(k, u, t, o, size, viaHead, again)) && ClaimStands(w.q, k, u, t, o) && w.q.rows[k].expiresAt <= w.clock
    ensures var v := Next(w, Act(pid, true));
      && v == w.(q := v.q, procs := w.procs[pid := if viaHead then DeferCompleted(k, u, t, o) else DeleteObject(k, u, t, o)])
      && v.q.rows == w.q.rows && v.q.ledger == w.q.ledger
  {
    hide Next, Advance, Do;
    ActAdvances(w, pid, Committing(k, u, t, o, size, viaHead, again), true);
    CommittingAct(w, pid, Committing(k, u, t, o, size, viaHead, again), true);
    ExpiredCommit(w.q, k, u, t, o, size, w.clock);
  }

  lemma {:induction false} ExpiredCommit(q: Quota, k: Key, u: string, t: string, o: int, size: int, now: int)
    requires ClaimStands(q, k, u, t, o) && q.rows[k].expiresAt <= now
    ensures var (q', reply) := Do(q, Call.Commit(k, u, t, o, size), now); !reply.Accepted? && q'.rows == q.rows && q'.ledger == q.ledger
  {
    hide Promotable, Promote, NextExpiry, ValidCall;
  }

  lemma {:induction false} DeferralEnds(w: World, pid: nat, k: Key, u: string, t: string, o: nat)
    requires IsAt(w, pid, DeferCompleted(k, u, t, o)) && ClaimStands(w.q, k, u, t, o) && ValidToken(t) && 1 <= o <= 0x1F_FFFF_FFFF_FFFF
    ensures var v := Next(w, Act(pid, true));
      && v == w.(q := v.q, procs := w.procs - {pid})
      && k in v.q.rows && v.q.rows[k] == w.q.rows[k].(phase := CompletionCleanup, expiresAt := w.clock + 5000, retries := 0)
  {
    hide Next, Advance, Do, ValidToken;
    ActAdvances(w, pid, DeferCompleted(k, u, t, o), true);
    RestoringAdvance(w, pid, k, u, t, o);
    DeferralHandsOver(w.q, k, u, t, o, w.clock);
  }

  /** A direct commit after the grace period takes the object and the reservation back; one
      for an object found by asking leaves both to recovery, due after five seconds. */
  lemma {:induction false} LateCommitEnds(bucket: map<Key, Obj>, clock: int, steps: seq<Step>, pid: nat,
                                          k: Key, u: string, t: string, o: nat, size: nat, viaHead: bool, again: bool)
    requires var w := Reach(bucket, clock, steps);
      && IsAt(w, pid, Committing(k, u, t, o, size, viaHead, again)) && ClaimStands(w.q, k, u, t, o)
      && w.q.rows[k].expiresAt <= w.clock && o <= 0x1F_FFFF_FFFF_FFFF
    ensures var w := Reach(bucket, clock, steps); var v := RunFrom(w, Acts(pid, 3));
      && v.q.ledger == w.q.ledger && v.open == w.open && v.procs == w.procs - {pid}
      && if viaHead
         then v.bucket == w.bucket && k in v.q.rows
              && v.q.rows[k] == w.q.rows[k].(phase := CompletionCleanup, expiresAt := w.clock + 5000, retries := 0)
         else v.bucket == w.bucket - {k} && k !in v.q.rows
  {
    hide Reach, Inv, Grounded, RunFrom, Next, ValidToken, PartsOk, Full;
    var w := Reach(bucket, clock, steps);
    ReachedGrounded(bucket, clock, steps);
    UploadTheorems.PartsOfReached(w);
    ClaimedRowFacts(w.q, k);
    GoodToken(w, k);
    RunFromFirst(w, Act(pid, true), Acts(pid, 2));
    LateCommitRefused(w, pid, k, u, t, o, size, viaHead, again);
    var v := Next(w, Act(pid, true));
    TwoActs(v, pid);
    if viaHead {
      DeferralEnds(v, pid, k, u, t, o);
      DeferralKeepsLedger(v, pid, k, u, t, o);
      IdleAct(Next(v, Act(pid, true)), pid);
    } else {
      DeleteEnds(v, pid, k, u, t, o);
    }
    PutBack(w.procs, pid, if viaHead then DeferCompleted(k, u, t, o) else DeleteObject(k, u, t, o));
  }

  lemma {:induction false} DeferralKeepsLedger(w: World, pid: nat, k: Key, u: string, t: string, o: nat)
    requires IsAt(w, pid, DeferCompleted(k, u, t, o))
    ensures Next(w, Act(pid, true)).q.ledger == w.q.ledger
  {
    hide Next, Advance, NextExpiry, ValidCall;
    ActAdvances(w, pid, DeferCompleted(k, u, t, o), true);
    RestoringAdvance(w, pid, k, u, t, o);
  }

  lemma {:induction false} DeleteEnds(w: World, pid: nat, k: Key, u: string, t: string, o: nat)
    requires IsAt(w, pid, DeleteObject(k, u, t, o)) && ClaimStands(w.q, k, u, t, o) && ValidToken(t)
    ensures var v := Next(Next(w, Act(pid, true)), Act(pid, true));
      && k !in v.q.rows && v.q.ledger == w.q.ledger && v.open == w.open && v.bucket == w.bucket - {k} && v.procs == w.procs - {pid}
  {
    hide Next, Advance, Do, ValidToken;
    ActAdvances(w, pid, DeleteObject(k, u, t, o), true);
    DeleteAdvance(w, pid, k, u, t, o, true);
    var v := Next(w, Act(pid, true));
    ActAdvances(v, pid, ReleaseDeleted(k, u, t, o), true);
    DeleteAdvance(v, pid, k, u, t, o, true);
    DroppedExactly(v.q, k, u, t, v.q.rows[k], v.clock);
    PutBack(w.procs, pid, ReleaseDeleted(k, u, t, o));
  }

  /** Where that delete, or the release after it, fails, the row is left to recovery. */
  lemma {:induction false} FailedDeleteWaits(bucket: map<Key, Obj>, clock: int, steps: seq<Step>, pid: nat, p: Proc,
                                             k: Key, u: string, t: string, o: nat)
    requires var w := Reach(bucket, clock, steps);
      && IsAt(w, pid, p) && ClaimStands(w.q, k, u, t, o) && o <= 0x1F_FFFF_FFFF_FFFF
      && (p == DeleteObject(k, u, t, o) || p == ReleaseDeleted(k, u, t, o))
    ensures var w := Reach(bucket, clock, steps); var v := RunFrom(w, [Act(pid, false), Act(pid, true)]);
      && v.open == w.open && v.bucket == w.bucket && v.procs == w.procs - {pid}
      && k in v.q.rows && v.q.rows[k] == w.q.rows[k].(phase := CompletionCleanup, expiresAt := w.clock + 5000, retries := 0)
  {
    hide Reach, Inv, Grounded, RunFrom, Next, Advance, ValidToken, PartsOk, Full;
    var w := Reach(bucket, clock, steps);
    ReachedGrounded(bucket, clock, steps);
    UploadTheorems.PartsOfReached(w);
    ClaimedRowFacts(w.q, k);
    GoodToken(w, k);
    TwoSteps(w, Act(pid, false), Act(pid, true));
    ActAdvances(w, pid, p, false);
    DeleteAdvance(w, pid, k, u, t, o, false);
    DeferralEnds(Next(w, Act(pid, false)), pid, k, u, t, o);
    PutBack(w.procs, pid, DeferCompleted(k, u, t, o));
  }

  // ---------------------------------------------------------------------------
  // Creation and parts

  /** A new upload: R2 has opened it, the coordinator has answered as it must, and where it
      has granted the reservation exactly that row is new; where not, the upload is closed
      again and no table has changed. */
  lemma {:induction false} CreationExact(w: World, pid: nat, k: Key, u: string, t: string, a: string, n: nat)
    requires pid !in w.procs && k !in w.made && k !in w.born && 1 <= n <= MAX_PLAINTEXT_BLOB
    ensures var size := ExpectedCipherBytes(n);
      var v := RunFrom(w, [Create(pid, k, u, t, a, n), ReserveReturns(pid, w.clock), Act(pid, true)]);
      if ReserveAnswer(w.q, k, u, t, a, size, w.clock) == Reserved(w.clock + 21_600_000)
      then v.q.rows == w.q.rows[k := Row(u, t, a, size, w.clock + 21_600_000, Active, 0, 0)]
           && v.open == w.open[k := Upload(u, a, map[])] && v.procs == w.procs
      else v.q.rows == w.q.rows && v.open == w.open - {k} && v.procs == w.procs
  {
    hide Next, RunFrom, ReserveAnswer, Do, ExpectedCipherBytes;
    var create, size := Create(pid, k, u, t, a, n), ExpectedCipherBytes(n);
    ThreeSteps(w, create, ReserveReturns(pid, w.clock), Act(pid, true));
    RowsAfterReserve(w.q, k, u, t, a, size, w.clock, w.clock);
    CreateEnds(w, pid, k, u, t, a, n);
  }

  lemma {:induction false} CreateEnds(w: World, pid: nat, k: Key, u: string, t: string, a: string, n: nat)
    requires pid !in w.procs && k !in w.made && k !in w.born && 1 <= n <= MAX_PLAINTEXT_BLOB
    ensures var (q', reply) := Do(w.q, Call.Reserve(k, u, t, a, ExpectedCipherBytes(n), w.clock), w.clock);
      var v := Next(Next(Next(w, Create(pid, k, u, t, a, n)), ReserveReturns(pid, w.clock)), Act(pid, true));
      && v.q == q' && v.procs == w.procs
      && v.open == if reply.Reserved? then w.open[k := Upload(u, a, map[])] else w.open - {k}
  {
    hide Next, Do, ExpectedCipherBytes;
    CreateOpens(w, pid, k, u, t, a, n);
    ReserveEnds(Next(w, Create(pid, k, u, t, a, n)), pid, k, u, Request(t, ExpectedCipherBytes(n)), a);
    PutBack(w.procs, pid, CreateWait(k));
    PutBack(w.open, k, Upload(u, a, map[]));
  }

  lemma {:induction false} PutBack<K, V>(m: map<K, V>, k: K, v: V)
    ensures m[k := v] - {k} == m - {k}
    ensures k !in m ==> m[k := v] - {k} == m
  {}

  /** The reservation call returns; where it is refused the upload is aborted. */
  lemma {:induction false} ReserveEnds(w: World, pid: nat, k: Key, u: string, r: Request, a: string)
    requires IsAt(w, pid, CreateWait(k)) && k in w.creating && w.creating[k] == r && k in w.made && w.made[k] == Owner(u, a) && IsOpen(w, k, u)
    ensures var (q', reply) := Do(w.q, Call.Reserve(k, u, r.token, a, r.size, w.clock), w.clock);
      var v := Next(Next(w, ReserveReturns(pid, w.clock)), Act(pid, true));
      v.q == q' && v.procs == w.procs - {pid} && v.open == if reply.Reserved? then w.open else w.open - {k}
  {
    hide Next, Do;
    ReserveSteps(w, pid, k);
    var v := Next(w, ReserveReturns(pid, w.clock));
    if Do(w.q, GrantCall(w, k, w.clock), w.clock).1.Reserved? {
      IdleAct(v, pid);
    } else {
      CreateAborts(v, pid, k, u);
      assert w.procs[pid := CreateAbort(k, u)] - {pid} == w.procs - {pid};
    }
  }

  lemma {:induction false} RowsAfterReserve(q: Quota, k: Key, u: string, t: string, a: string, size: int, asOf: int, now: int)
    ensures var (q', reply) := Do(q, Call.Reserve(k, u, t, a, size, asOf), now);
      if ReserveAnswer(q, k, u, t, a, size, asOf) == Reserved(asOf + 21_600_000)
      then reply.Reserved? && size >= 1 && q'.rows == q.rows[k := Row(u, t, a, size, asOf + 21_600_000, Active, 0, 0)]
      else !reply.Reserved? && q'.rows == q.rows
  {
    hide Do, HexString, Usable, StorageIsFull, ActorIsFull;
    ReserveAnsweredExactly(q, k, u, t, a, size, asOf, now);
  }

  lemma {:induction false} CreateOpens(w: World, pid: nat, k: Key, u: string, t: string, a: string, n: nat)
    requires pid !in w.procs && k !in w.made && k !in w.born && 1 <= n <= MAX_PLAINTEXT_BLOB
    ensures Next(w, Create(pid, k, u, t, a, n)) ==
      w.(procs := w.procs[pid := CreateWait(k)], open := w.open[k := Upload(u, a, map[])], made := w.made[k := Owner(u, a)],
         creating := w.creating[k := Request(t, ExpectedCipherBytes(n))])
  {}

  lemma {:induction false} ReserveSteps(w: World, pid: nat, k: Key)
    requires IsAt(w, pid, CreateWait(k)) && k in w.creating && k in w.made
    ensures var c := GrantCall(w, k, w.clock); var v := Next(w, ReserveReturns(pid, w.clock));
      && v.q == Do(w.q, c, w.clock).0 && v.open == w.open && v.made == w.made
      && v.procs == if Do(w.q, c, w.clock).1.Reserved? then w.procs - {pid} else w.procs[pid := CreateAbort(k, w.made[k].uploadId)]
  {
    hide Do, Grant, GrantCall;
    GrantFields(w, k, w.clock);
  }

  lemma {:induction false} GrantFields(w: World, k: Key, asOf: int)
    requires k in w.creating && k in w.made
    ensures var v := Grant(w, k, asOf);
      v.q == Do(w.q, GrantCall(w, k, asOf), w.clock).0 && v.open == w.open && v.made == w.made && v.procs == w.procs
  {
    hide Do, GrantCall;
  }

  lemma {:induction false} CreateAborts(w: World, pid: nat, k: Key, u: string)
    requires IsAt(w, pid, CreateAbort(k, u)) && IsOpen(w, k, u)
    ensures Next(w, Act(pid, true)) == w.(open := w.open - {k}, procs := w.procs - {pid})
  {
    hide Advance;
    ActAdvances(w, pid, CreateAbort(k, u), true);
    assert Advance(w, pid, CreateAbort(k, u), true) == Ends(Abort(w, k, u), pid) by { CreateAbortAdvance(w, pid, k, u); }
  }

  lemma {:induction false} CreateAbortAdvance(w: World, pid: nat, k: Key, u: string)
    ensures Advance(w, pid, CreateAbort(k, u), true) == Ends(Abort(w, k, u), pid)
  {
    hide Ends, Abort;
  }

  /** A part of a live, open upload that is new and fits is registered by the coordinator
      and held by R2, with the same size. */
  lemma {:induction false} PartIsStored(bucket: map<Key, Obj>, clock: int, steps: seq<Step>, pid: nat,
                                        k: Key, u: string, t: string, n: int, size: nat)
    requires var w := Reach(bucket, clock, steps);
      && pid !in w.procs && IsOpen(w, k, u) && Live(w.q, k, u, t, w.clock)
      && 1 <= n <= 256 && 1 <= size <= 33_554_432 && n !in PartsOf(w.q, k) && Sum(PartsOf(w.q, k)) + size <= w.q.rows[k].bytes
    ensures var w := Reach(bucket, clock, steps); var v := RunFrom(w, [PartRequest(pid, k, u, t, n, size, true), Act(pid, true)]);
      && PartsOf(v.q, k) == PartsOf(w.q, k)[n := size]
      && v.open == w.open[k := w.open[k].(parts := w.open[k].parts[n := size])]
      && v.procs == w.procs && v.bucket == w.bucket
  {
    hide Reach, Inv, Grounded, RunFrom, Next, Do, Sum, ValidToken;
    var w := Reach(bucket, clock, steps);
    ReachedGrounded(bucket, clock, steps);
    GoodToken(w, k);
    TwoSteps(w, PartRequest(pid, k, u, t, n, size, true), Act(pid, true));
    PartAnsweredExactly(w.q, k, u, t, n, size, w.clock, w.clock);
    PartGranted(w, pid, k, u, t, n, size);
    PartUploads(Next(w, PartRequest(pid, k, u, t, n, size, true)), pid, k, u, t, n, size);
    assert w.procs[pid := PartUpload(k, u, t, n, size)] - {pid} == w.procs;
  }

  lemma {:induction false} PartGranted(w: World, pid: nat, k: Key, u: string, t: string, n: int, size: nat)
    requires pid !in w.procs && Do(w.q, Call.ReservePart(k, u, t, n, size), w.clock).1.Accepted?
    ensures Next(w, PartRequest(pid, k, u, t, n, size, true)) ==
      w.(q := Do(w.q, Call.ReservePart(k, u, t, n, size), w.clock).0, procs := w.procs[pid := PartUpload(k, u, t, n, size)])
  {
    hide Do;
  }

  lemma {:induction false} PartUploads(w: World, pid: nat, k: Key, u: string, t: string, n: int, size: nat)
    requires IsAt(w, pid, PartUpload(k, u, t, n, size)) && IsOpen(w, k, u)
    ensures Next(w, Act(pid, true)) ==
      w.(open := w.open[k := w.open[k].(parts := w.open[k].parts[n := size])], procs := w.procs - {pid})
  {
    hide Advance;
    ActAdvances(w, pid, PartUpload(k, u, t, n, size), true);
    PartAdvance(w, pid, k, u, t, n, size, true);
  }

  lemma {:induction false} PartAdvance(w: World, pid: nat, k: Key, u: string, t: string, n: int, size: nat, heard: bool)
    ensures Advance(w, pid, PartUpload(k, u, t, n, size), heard) ==
      if heard && IsOpen(w, k, u) then Ends(PutPart(w, k, u, n, size), pid)
      else At(if heard then w else Lost(w, ToPart(k, u, n, size)), pid, PartFail(k, u, t))
  {
    hide Ends, At, PutPart, Lost, IsOpen;
  }

  // ---------------------------------------------------------------------------
  // Giving up

  /** Nothing of the upload is left, and nothing else has changed in the store. */
  predicate GoneFor(w: World, v: World, k: Key) {
    && k !in v.q.rows && k !in v.q.parts && k !in v.q.ledger
    && v.open == w.open - {k} && v.bucket == w.bucket && k !in v.bucket
  }

  /** What a worker does next about an abort. */
  lemma {:induction false} AbortAdvance(w: World, pid: nat, k: Key, u: string, t: string, heard: bool)
    ensures Advance(w, pid, PartFail(k, u, t), true) ==
      if Answer(w, Call.ClaimAbort(k, u, t)).Accepted? then At(CallQuota(w, Call.ClaimAbort(k, u, t)), pid, AbortUpload(k, u, t))
      else Ends(CallQuota(w, Call.ClaimAbort(k, u, t)), pid)
    ensures Advance(w, pid, AbortUpload(k, u, t), heard) ==
      if heard && IsOpen(w, k, u) then At(Abort(w, k, u), pid, ReleaseAborted(k, u, t))
      else At(if heard then w else Lost(w, ToAbort(k, u)), pid, DeferAborted(k, u, t))
    ensures Advance(w, pid, ReleaseAborted(k, u, t), heard) ==
      if heard then Ends(CallQuota(w, Call.Release(k, u, t)), pid)
      else At(Lost(w, ToQuota(Call.Release(k, u, t))), pid, DeferAborted(k, u, t))
    ensures Advance(w, pid, DeferAborted(k, u, t), true) == Ends(CallQuota(w, Call.DeferAbort(k, u, t)), pid)
  {
    hide Ends, At, CallQuota, Lost, Abort, IsOpen, Answer;
  }

  /** The worker's claim to the abort stands. */
  predicate AbortStands(q: Quota, k: Key, u: string, t: string) {
    k in q.rows && q.rows[k].uploadId == u && q.rows[k].token == t && q.rows[k].phase.AbortPending?
  }

  lemma {:induction false} AbortRuns(w: World, pid: nat, k: Key, u: string, t: string)
    requires Inv(w) && IsAt(w, pid, AbortUpload(k, u, t)) && IsOpen(w, k, u) && AbortStands(w.q, k, u, t) && ValidToken(t)
    ensures var v := Next(Next(w, Act(pid, true)), Act(pid, true)); GoneFor(w, v, k) && v.procs == w.procs - {pid}
  {
    hide Inv, Next, Do, ValidToken;
    KeyFacts(w, k);
    OpenHasNoObject(w, k);
    AbortCloses(w, pid, k, u, t);
    ReleaseDrops(Next(w, Act(pid, true)), pid, k, u, t);
    assert w.procs[pid := ReleaseAborted(k, u, t)] - {pid} == w.procs - {pid};
  }

  lemma {:induction false} AbortCloses(w: World, pid: nat, k: Key, u: string, t: string)
    requires IsAt(w, pid, AbortUpload(k, u, t)) && IsOpen(w, k, u)
    ensures Next(w, Act(pid, true)) == w.(open := w.open - {k}, procs := w.procs[pid := ReleaseAborted(k, u, t)])
  {
    hide Next, Advance;
    ActAdvances(w, pid, AbortUpload(k, u, t), true);
    AbortAdvance(w, pid, k, u, t, true);
  }

  lemma {:induction false} ReleaseDrops(w: World, pid: nat, k: Key, u: string, t: string)
    requires IsAt(w, pid, ReleaseAborted(k, u, t)) && AbortStands(w.q, k, u, t) && ValidToken(t)
    ensures var v := Next(w, Act(pid, true));
      && v == w.(q := v.q, procs := w.procs - {pid}) && k !in v.q.rows && k !in v.q.parts && v.q.ledger == w.q.ledger
  {
    hide Next, Advance, Do, ValidToken;
    ActAdvances(w, pid, ReleaseAborted(k, u, t), true);
    AbortAdvance(w, pid, k, u, t, true);
    DroppedExactly(w.q, k, u, t, w.q.rows[k], w.clock);
  }

  /** An abort request for a live, open upload leaves nothing of it. */
  lemma {:induction false} AbortRemoves(bucket: map<Key, Obj>, clock: int, steps: seq<Step>, pid: nat, k: Key, u: string, t: string)
    requires var w := Reach(bucket, clock, steps); pid !in w.procs && IsOpen(w, k, u) && Live(w.q, k, u, t, w.clock)
    ensures var w := Reach(bucket, clock, steps); var v := RunFrom(w, [AbortRequest(pid, k, u, t, true), Act(pid, true), Act(pid, true)]);
      GoneFor(w, v, k) && v.procs == w.procs
  {
    hide Reach, Inv, Grounded, RunFrom, Next, Do, ValidToken, GoneFor;
    var w, s := Reach(bucket, clock, steps), AbortRequest(pid, k, u, t, true);
    ReachedGrounded(bucket, clock, steps);
    GoodToken(w, k);
    ThreeSteps(w, s, Act(pid, true), Act(pid, true));
    AbortAnsweredExactly(w.q, k, u, t, w.clock);
    AbortGranted(w, pid, k, u, t);
    NextKeeps(w, s);
    AbortRuns(Next(w, s), pid, k, u, t);
    SameGone(w, Next(w, s), RunFrom(w, [s, Act(pid, true), Act(pid, true)]), k);
    assert w.procs[pid := AbortUpload(k, u, t)] - {pid} == w.procs;
  }

  lemma {:induction false} SameGone(w: World, m: World, v: World, k: Key)
    requires GoneFor(m, v, k) && m.open == w.open && m.bucket == w.bucket
    ensures GoneFor(w, v, k)
  {}

  lemma {:induction false} AbortGranted(w: World, pid: nat, k: Key, u: string, t: string)
    requires pid !in w.procs && Do(w.q, Call.ClaimAbort(k, u, t), w.clock).1.Accepted?
    ensures Next(w, AbortRequest(pid, k, u, t, true)) ==
      w.(q := Do(w.q, Call.ClaimAbort(k, u, t), w.clock).0, procs := w.procs[pid := AbortUpload(k, u, t)])
  {
    hide Do;
  }

  /** A part whose upload fails takes the whole upload with it. */
  lemma {:induction false} FailedPartRemoves(bucket: map<Key, Obj>, clock: int, steps: seq<Step>, pid: nat,
                                             k: Key, u: string, t: string, n: int, size: nat)
    requires var w := Reach(bucket, clock, steps);
      IsAt(w, pid, PartUpload(k, u, t, n, size)) && IsOpen(w, k, u) && Live(w.q, k, u, t, w.clock)
    ensures var w := Reach(bucket, clock, steps); var v := RunFrom(w, [Act(pid, false)] + Acts(pid, 3));
      GoneFor(w, v, k) && v.procs == w.procs - {pid}
  {
    hide Reach, Inv, Grounded, RunFrom, Next, Advance, Do, ValidToken, GoneFor;
    var w := Reach(bucket, clock, steps);
    ReachedGrounded(bucket, clock, steps);
    GoodToken(w, k);
    RunFromFirst(w, Act(pid, false), Acts(pid, 3));
    RunFromFirst(Next(w, Act(pid, false)), Act(pid, true), Acts(pid, 2));
    FailureClaims(w, pid, k, u, t, n, size);
    NextKeeps(w, Act(pid, false));
    NextKeeps(Next(w, Act(pid, false)), Act(pid, true));
    var x := Next(Next(w, Act(pid, false)), Act(pid, true));
    AbortRuns(x, pid, k, u, t);
    TwoActs(x, pid);
    SameGone(w, x, RunFrom(w, [Act(pid, false)] + Acts(pid, 3)), k);
    assert w.procs[pid := AbortUpload(k, u, t)] - {pid} == w.procs - {pid};
  }

  /** The worker whose part failed claims the abort. */
  lemma {:induction false} FailureClaims(w: World, pid: nat, k: Key, u: string, t: string, n: int, size: nat)
    requires IsAt(w, pid, PartUpload(k, u, t, n, size)) && Live(w.q, k, u, t, w.clock) && ValidToken(t)
    ensures var x := Next(Next(w, Act(pid, false)), Act(pid, true));
      x == w.(q := x.q, late := x.late, procs := w.procs[pid := AbortUpload(k, u, t)]) && AbortStands(x.q, k, u, t)
  {
    hide Next, Advance, Do, ValidToken;
    ActAdvances(w, pid, PartUpload(k, u, t, n, size), false);
    PartAdvance(w, pid, k, u, t, n, size, false);
    var v := Next(w, Act(pid, false));
    ActAdvances(v, pid, PartFail(k, u, t), true);
    AbortAdvance(v, pid, k, u, t, true);
    AbortAnsweredExactly(v.q, k, u, t, v.clock);
    assert w.procs[pid := PartFail(k, u, t)][pid := AbortUpload(k, u, t)] == w.procs[pid := AbortUpload(k, u, t)];
  }

  /** Where the abort or the release fails the row is kept, still charged, for the cleanup:
      due after the retry delay. */
  lemma {:induction false} FailedAbortWaits(bucket: map<Key, Obj>, clock: int, steps: seq<Step>, pid: nat, p: Proc, k: Key, u: string, t: string)
    requires var w := Reach(bucket, clock, steps);
      IsAt(w, pid, p) && AbortStands(w.q, k, u, t) && (p == AbortUpload(k, u, t) || p == ReleaseAborted(k, u, t))
    ensures var w := Reach(bucket, clock, steps); var r := w.q.rows[k]; var v := RunFrom(w, [Act(pid, false), Act(pid, true)]);
      && v.open == w.open && v.bucket == w.bucket && v.procs == w.procs - {pid}
      && k in v.q.rows && v.q.rows[k] == r.(expiresAt := w.clock + RetryDelay(r.retries), retries := r.retries + 1)
  {
    hide Reach, Inv, Grounded, RunFrom, Next, ValidToken, RetryDelay;
    var w := Reach(bucket, clock, steps);
    ReachedGrounded(bucket, clock, steps);
    GoodToken(w, k);
    TwoSteps(w, Act(pid, false), Act(pid, true));
    AbortFails(w, pid, p, k, u, t);
    DeferralActs(Next(w, Act(pid, false)), pid, k, u, t);
    assert w.procs[pid := DeferAborted(k, u, t)] - {pid} == w.procs - {pid};
  }

  lemma {:induction false} AbortFails(w: World, pid: nat, p: Proc, k: Key, u: string, t: string)
    requires IsAt(w, pid, p) && (p == AbortUpload(k, u, t) || p == ReleaseAborted(k, u, t))
    ensures var v := Next(w, Act(pid, false)); v == w.(late := v.late, procs := w.procs[pid := DeferAborted(k, u, t)])
  {
    hide Next, Advance;
    ActAdvances(w, pid, p, false);
    AbortAdvance(w, pid, k, u, t, false);
  }

  lemma {:induction false} DeferralActs(w: World, pid: nat, k: Key, u: string, t: string)
    requires IsAt(w, pid, DeferAborted(k, u, t)) && AbortStands(w.q, k, u, t) && ValidToken(t)
    ensures var v := Next(w, Act(pid, true)); var r := w.q.rows[k];
      && v == w.(q := v.q, procs := w.procs - {pid})
      && k in v.q.rows && v.q.rows[k] == r.(expiresAt := w.clock + RetryDelay(r.retries), retries := r.retries + 1)
  {
    hide Next, Advance, Do, ValidToken, RetryDelay;
    ActAdvances(w, pid, DeferAborted(k, u, t), true);
    AbortAdvance(w, pid, k, u, t, true);
    AbortDeferredExactly(w.q, k, u, t, w.clock);
  }

  // ---------------------------------------------------------------------------
  // Cleanup

  /** The row `r` is due for the cleanup. */
  predicate Due(w: World, k: Key, r: Row) { k in w.q.rows && w.q.rows[k] == r && InCleanup(r.phase) }

  /** The upload is closed, its object and its row are gone, and nothing else has changed. */
  predicate Cleaned(w: World, v: World, c: nat, k: Key) {
    && v.q.rows == w.q.rows - {k} && v.q.parts == w.q.parts - {k} && v.q.ledger == w.q.ledger
    && v.open == w.open - {k} && v.bucket == w.bucket - {k} && v.procs == w.procs - {c}
  }

  /** What a cleanup that is heard does next. */
  lemma {:induction false} CleanHeadAdvance(w: World, c: nat, k: Key, r: Row)
    ensures Advance(w, c, CleanHead(k, r), true) ==
      At(w, c, if k in w.bucket then CleanPromote(k, r, w.bucket[k].size) else CleanAbort(k, r))
  {
    hide Ends, At, CallQuota, Abort, Delete, IsOpen;
  }

  lemma {:induction false} CleanDeleteAdvance(w: World, c: nat, k: Key, r: Row)
    ensures Advance(w, c, CleanDelete(k, r), true) == At(Delete(w, k), c, CleanFinish(k, r))
  {
    hide Ends, At, CallQuota, Abort, Delete, IsOpen;
  }

  lemma {:induction false} CleanAbortAdvance(w: World, c: nat, k: Key, r: Row)
    ensures Advance(w, c, CleanAbort(k, r), true) ==
      if IsOpen(w, k, r.uploadId) then At(Abort(w, k, r.uploadId), c, CleanFinish(k, r)) else At(w, c, CleanHeadAgain(k, r))
  {
    hide Ends, At, CallQuota, Abort, Delete, IsOpen;
  }

  lemma {:induction false} CleanAgainAdvance(w: World, c: nat, k: Key, r: Row)
    ensures Advance(w, c, CleanHeadAgain(k, r), true) ==
      At(w, c, if k in w.bucket then CleanPromoteAgain(k, r, w.bucket[k].size) else CleanFinish(k, r))
  {
    hide Ends, At, CallQuota, Abort, Delete, IsOpen;
  }

  lemma {:induction false} CleanFinishAdvance(w: World, c: nat, k: Key, r: Row)
    ensures Advance(w, c, CleanFinish(k, r), true) == Ends(CallQuota(w, Call.FinishCleanup(k, r)), c)
  {
    hide Ends, At, CallQuota, Abort, Delete, IsOpen;
  }

  /** Placing a task changes nothing else. */
  lemma {:induction false} AtFrame(w: World, c: nat, p: Proc)
    ensures var m := At(w, c, p);
      && m.q == w.q && m.open == w.open && m.bucket == w.bucket && m.clock == w.clock
      && IsAt(m, c, p) && m.procs - {c} == w.procs - {c}
  {}

  lemma {:induction false} PromoteAdvance(w: World, c: nat, k: Key, r: Row, size: nat)
    ensures var call := Call.PromoteRecovered(k, r, size);
      && Advance(w, c, CleanPromote(k, r, size), true) ==
           (if Answer(w, call).Accepted? then Ends(CallQuota(w, call), c) else At(w, c, CleanDelete(k, r)))
      && Advance(w, c, CleanPromoteAgain(k, r, size), true) ==
           (if Answer(w, call).Accepted? then Ends(CallQuota(w, call), c)
            else At(w, c, if r.phase.AbortPending? then CleanDelete(k, r) else CleanRetry(k, r)))
  {
    hide Ends, At, CallQuota, Answer;
  }

  lemma {:induction false} IdleActs(w: World, c: nat, n: nat)
    requires c !in w.procs
    ensures RunFrom(w, Acts(c, n)) == w
  {
    hide Next;
    if n > 0 {
      IdleAct(w, c);
      RunFromFirst(w, Act(c, true), Acts(c, n - 1));
      IdleActs(w, c, n - 1);
    }
  }

  lemma {:induction false} CleanedFrom(w: World, m: World, v: World, c: nat, k: Key)
    requires Cleaned(m, v, c, k) && m.q == w.q
    requires m.open - {k} == w.open - {k} && m.bucket - {k} == w.bucket - {k} && m.procs - {c} == w.procs - {c}
    ensures Cleaned(w, v, c, k)
  {}

  /** One await of the cleanup that leaves the tables alone, and the rest. */
  lemma {:induction false} CleanFirst(w: World, m: World, c: nat, k: Key, n: nat)
    requires n > 0 && Next(w, Act(c, true)) == m && Cleaned(m, RunFrom(m, Acts(c, n - 1)), c, k) && m.q == w.q
    requires m.open - {k} == w.open - {k} && m.bucket - {k} == w.bucket - {k} && m.procs - {c} == w.procs - {c}
    ensures Cleaned(w, RunFrom(w, Acts(c, n)), c, k)
  {
    hide Next, RunFrom, Cleaned;
    RunFromFirst(w, Act(c, true), Acts(c, n - 1));
    CleanedFrom(w, m, RunFrom(m, Acts(c, n - 1)), c, k);
  }

  lemma {:induction false} FromFinish(w: World, c: nat, k: Key, r: Row, n: nat)
    requires IsAt(w, c, CleanFinish(k, r)) && Due(w, k, r) && k !in w.open && k !in w.bucket && n >= 1
    ensures Cleaned(w, RunFrom(w, Acts(c, n)), c, k)
  {
    hide Next, Advance, RunFrom, Do, ValidToken;
    RunFromFirst(w, Act(c, true), Acts(c, n - 1));
    ActAdvances(w, c, CleanFinish(k, r), true);
    CleanFinishAdvance(w, c, k, r);
    FinishDrops(w.q, k, r, w.clock);
    IdleActs(Next(w, Act(c, true)), c, n - 1);
  }

  lemma {:induction false} FinishDrops(q: Quota, k: Key, r: Row, now: int)
    requires k in q.rows && q.rows[k] == r && InCleanup(r.phase)
    ensures var q' := Do(q, Call.FinishCleanup(k, r), now).0;
      q'.rows == q.rows - {k} && q'.parts == q.parts - {k} && q'.ledger == q.ledger
  {
    hide NextExpiry;
  }

  lemma {:induction false} FromDelete(w: World, c: nat, k: Key, r: Row, n: nat)
    requires IsAt(w, c, CleanDelete(k, r)) && Due(w, k, r) && k !in w.open && n >= 2
    ensures Cleaned(w, RunFrom(w, Acts(c, n)), c, k)
  {
    hide Next, Advance, RunFrom, Cleaned, At, IsAt;
    var m := At(Delete(w, k), c, CleanFinish(k, r));
    ActAdvances(w, c, CleanDelete(k, r), true);
    CleanDeleteAdvance(w, c, k, r);
    AtFrame(Delete(w, k), c, CleanFinish(k, r));
    FromFinish(m, c, k, r, n - 1);
    CleanFirst(w, m, c, k, n);
  }

  /** An aborted upload whose object turns up is not promoted but deleted. */
  lemma {:induction false} FromPromoteAgain(w: World, c: nat, k: Key, r: Row, size: nat, n: nat)
    requires IsAt(w, c, CleanPromoteAgain(k, r, size)) && Due(w, k, r) && r.phase.AbortPending? && k !in w.open && n >= 3
    ensures Cleaned(w, RunFrom(w, Acts(c, n)), c, k)
  {
    hide Next, Advance, RunFrom, Cleaned, Do, At, IsAt;
    var m := At(w, c, CleanDelete(k, r));
    ActAdvances(w, c, CleanPromoteAgain(k, r, size), true);
    PromoteAdvance(w, c, k, r, size);
    AbortedNotPromoted(w.q, k, r, size, w.clock);
    AtFrame(w, c, CleanDelete(k, r));
    FromDelete(m, c, k, r, n - 1);
    CleanFirst(w, m, c, k, n);
  }

  lemma {:induction false} AbortedNotPromoted(q: Quota, k: Key, r: Row, size: nat, now: int)
    requires k in q.rows && q.rows[k].phase.AbortPending?
    ensures !Do(q, Call.PromoteRecovered(k, r, size), now).1.Accepted?
  {
    hide Promotable, Promote;
  }

  lemma {:induction false} FromHeadAgain(w: World, c: nat, k: Key, r: Row, n: nat)
    requires IsAt(w, c, CleanHeadAgain(k, r)) && Due(w, k, r) && k !in w.open && (k in w.bucket ==> r.phase.AbortPending?) && n >= 4
    ensures Cleaned(w, RunFrom(w, Acts(c, n)), c, k)
  {
    hide Next, Advance, RunFrom, Cleaned, At, IsAt;
    var p := if k in w.bucket then CleanPromoteAgain(k, r, w.bucket[k].size) else CleanFinish(k, r);
    ActAdvances(w, c, CleanHeadAgain(k, r), true);
    CleanAgainAdvance(w, c, k, r);
    AtFrame(w, c, p);
    if k in w.bucket {
      FromPromoteAgain(At(w, c, p), c, k, r, w.bucket[k].size, n - 1);
    } else {
      FromFinish(At(w, c, p), c, k, r, n - 1);
    }
    CleanFirst(w, At(w, c, p), c, k, n);
  }

  lemma {:induction false} FromAbort(w: World, c: nat, k: Key, r: Row, n: nat)
    requires IsAt(w, c, CleanAbort(k, r)) && Due(w, k, r) && (k in w.bucket ==> r.phase.AbortPending?) && n >= 5
    requires k in w.open ==> w.open[k].uploadId == r.uploadId && k !in w.bucket
    ensures Cleaned(w, RunFrom(w, Acts(c, n)), c, k)
  {
    hide Next, Advance, RunFrom, Cleaned, At, IsAt;
    var p := if k in w.open then CleanFinish(k, r) else CleanHeadAgain(k, r);
    var m := if k in w.open then At(Abort(w, k, r.uploadId), c, p) else At(w, c, p);
    ActAdvances(w, c, CleanAbort(k, r), true);
    CleanAbortAdvance(w, c, k, r);
    AtFrame(if k in w.open then Abort(w, k, r.uploadId) else w, c, p);
    if k in w.open { FromFinish(m, c, k, r, n - 1); } else { FromHeadAgain(m, c, k, r, n - 1); }
    CleanFirst(w, m, c, k, n);
  }

  lemma {:induction false} FromHead(w: World, c: nat, k: Key, r: Row, n: nat)
    requires IsAt(w, c, CleanHead(k, r)) && Due(w, k, r) && k !in w.bucket && n >= 6
    requires k in w.open ==> w.open[k].uploadId == r.uploadId
    ensures Cleaned(w, RunFrom(w, Acts(c, n)), c, k)
  {
    hide Next, Advance, RunFrom, Cleaned, At, IsAt;
    var m := At(w, c, CleanAbort(k, r));
    ActAdvances(w, c, CleanHead(k, r), true);
    CleanHeadAdvance(w, c, k, r);
    AtFrame(w, c, CleanAbort(k, r));
    FromAbort(m, c, k, r, n - 1);
    CleanFirst(w, m, c, k, n);
  }

  lemma {:induction false} CleanupBegins(w: World, c: nat, k: Key, r: Row)
    requires c !in w.procs && Due(w, k, r) && r.expiresAt <= w.clock
    ensures Next(w, CleanupStarts(c, k)) == At(w, c, if r.phase.CompletionCleanup? then CleanHead(k, r) else CleanAbort(k, r))
  {}

  /** No cleanup starts on a row before it is due, or on one that is not in a cleanup phase. */
  lemma {:induction false} NoEarlyCleanup(w: World, c: nat, k: Key)
    requires k in w.q.rows ==> w.clock < w.q.rows[k].expiresAt || w.q.rows[k].phase.Active? || w.q.rows[k].phase.Completing?
    ensures Next(w, CleanupStarts(c, k)) == w
  {}

  /** An open upload is the one its row was granted for. */
  lemma {:induction false} OpenIsTheRows(w: World, k: Key)
    requires Inv(w) && k in w.open && k in w.q.rows
    ensures w.open[k].uploadId == w.q.rows[k].uploadId && k !in w.bucket
  {
    hide QInv, Budget, TasksOk, OpenOk, CoveredIn, LedgerMatches;
  }

  /** One cleanup that is heard settles a due row, from every reachable state. Unless the
      row is in recovery and its object stored, upload, object and row are gone. */
  lemma {:induction false} CleanupRemoves(bucket: map<Key, Obj>, clock: int, steps: seq<Step>, c: nat, k: Key)
    requires var w := Reach(bucket, clock, steps);
      && c !in w.procs && k in w.q.rows && InCleanup(w.q.rows[k].phase) && w.q.rows[k].expiresAt <= w.clock
      && (w.q.rows[k].phase.CompletionCleanup? ==> k !in w.bucket)
    ensures Cleaned(Reach(bucket, clock, steps), RunFrom(Reach(bucket, clock, steps), [CleanupStarts(c, k)] + Acts(c, 6)), c, k)
  {
    hide Reach, Inv, RunFrom, Next, Cleaned;
    var w, s := Reach(bucket, clock, steps), CleanupStarts(c, k);
    var r := w.q.rows[k];
    Reached(bucket, clock, steps);
    RunFromFirst(w, s, Acts(c, 6));
    CleanupBegins(w, c, k, r);
    if k in w.open { OpenIsTheRows(w, k); }
    var p := if r.phase.CompletionCleanup? then CleanHead(k, r) else CleanAbort(k, r);
    if r.phase.CompletionCleanup? { FromHead(At(w, c, p), c, k, r, 6); } else { FromAbort(At(w, c, p), c, k, r, 6); }
    PutBack(w.procs, c, p);
    CleanedFrom(w, At(w, c, p), RunFrom(w, [s] + Acts(c, 6)), c, k);
  }

  /** A row in recovery whose object is stored is recorded, with the receipt the worker's
      own commit would have left, and the object stays. */
  lemma {:induction false} CleanupRecords(bucket: map<Key, Obj>, clock: int, steps: seq<Step>, c: nat, k: Key)
    requires var w := Reach(bucket, clock, steps);
      && c !in w.procs && k in w.q.rows && w.q.rows[k].phase.CompletionCleanup? && w.q.rows[k].expiresAt <= w.clock && k in w.bucket
    ensures var w := Reach(bucket, clock, steps); var r, v := w.q.rows[k], RunFrom(w, [CleanupStarts(c, k)] + Acts(c, 2));
      && k !in v.q.rows && ExactReceipt(v.q, k, r.uploadId, r.token, r.op, r.bytes)
      && v.bucket == w.bucket && v.open == w.open && v.procs == w.procs
  {
    hide Reach, Inv, RunFrom, Next, Do, Advance;
    var w, s := Reach(bucket, clock, steps), CleanupStarts(c, k);
    var r := w.q.rows[k];
    Reached(bucket, clock, steps);
    RunFromFirst(w, s, Acts(c, 2));
    CleanupBegins(w, c, k, r);
    var v := At(w, c, CleanHead(k, r));
    TwoActs(v, c);
    ActAdvances(v, c, CleanHead(k, r), true);
    CleanHeadAdvance(v, c, k, r);
    RecoveryRecords(w, k, r);
    var x := At(v, c, CleanPromote(k, r, r.bytes));
    ActAdvances(x, c, CleanPromote(k, r, r.bytes), true);
    PromoteAdvance(x, c, k, r, r.bytes);
    assert x.procs - {c} == w.procs;
  }

  lemma {:induction false} RecoveryRecords(w: World, k: Key, r: Row)
    requires Inv(w) && k in w.bucket && k in w.q.rows && w.q.rows[k] == r && r.phase.CompletionCleanup?
    ensures w.bucket[k].size == r.bytes
    ensures var (q', reply) := Do(w.q, Call.PromoteRecovered(k, r, r.bytes), w.clock);
      reply.Accepted? && k !in q'.rows && ExactReceipt(q', k, r.uploadId, r.token, r.op, r.bytes)
  {
    hide Inv, PartsOk, Do;
    UploadTheorems.PartsOfReached(w);
    KeyFacts(w, k);
    RowGranted(w, k);
    StoredIs(w, k);
    PromotedOnRecovery(w.q, k, r, w.clock);
    RecoveryWritesSameReceipt(w.q, k, r, r.bytes, w.clock);
  }

  lemma {:induction false} PromotedOnRecovery(q: Quota, k: Key, r: Row, now: int)
    requires PartsOk(q) && k in q.rows && q.rows[k] == r && r.phase.CompletionCleanup? && k !in q.ledger
    ensures Do(q, Call.PromoteRecovered(k, r, r.bytes), now).1.Accepted?
  {
    hide PartsOk, Sum;
    PromotionFailsExactly(q, k, r.bytes);
  }

  /** Also when the object only turns up at the second look, after the abort has failed. */
  lemma {:induction false} SecondLookRecords(bucket: map<Key, Obj>, clock: int, steps: seq<Step>, c: nat, k: Key, r: Row)
    requires var w := Reach(bucket, clock, steps);
      IsAt(w, c, CleanHeadAgain(k, r)) && Due(w, k, r) && r.phase.CompletionCleanup? && k in w.bucket
    ensures var w := Reach(bucket, clock, steps); var v := RunFrom(w, Acts(c, 2));
      && k !in v.q.rows && ExactReceipt(v.q, k, r.uploadId, r.token, r.op, r.bytes)
      && v.bucket == w.bucket && v.open == w.open && v.procs == w.procs - {c}
  {
    hide Reach, Inv, RunFrom, Next, Do, Advance;
    var w := Reach(bucket, clock, steps);
    Reached(bucket, clock, steps);
    TwoActs(w, c);
    RecoveryRecords(w, k, r);
    ActAdvances(w, c, CleanHeadAgain(k, r), true);
    CleanAgainAdvance(w, c, k, r);
    var x := At(w, c, CleanPromoteAgain(k, r, r.bytes));
    ActAdvances(x, c, CleanPromoteAgain(k, r, r.bytes), true);
    PromoteAdvance(x, c, k, r, r.bytes);
    PutBack(w.procs, c, CleanPromoteAgain(k, r, r.bytes));
  }

  predicate Asks(p: Proc, k: Key, r: Row) {
    p == CleanHead(k, r) || p == CleanDelete(k, r) || p == CleanAbort(k, r) || p == CleanHeadAgain(k, r)
  }

  /** A cleanup whose call fails puts the row off by the retry delay and changes nothing
      else. */
  lemma {:induction false} FailedCleanupRetries(w: World, c: nat, p: Proc, k: Key, r: Row)
    requires IsAt(w, c, p) && Asks(p, k, r) && Due(w, k, r)
    ensures var v := RunFrom(w, [Act(c, false), Act(c, true)]);
      && v.open == w.open && v.bucket == w.bucket && v.procs == w.procs - {c} && v.q.ledger == w.q.ledger
      && v.q.rows == w.q.rows[k := r.(retries := r.retries + 1, expiresAt := w.clock + RetryDelay(r.retries))]
  {
    hide RunFrom, Next, Do, Advance, RetryDelay;
    TwoSteps(w, Act(c, false), Act(c, true));
    ActAdvances(w, c, p, false);
    UnheardAsk(w, c, p, k, r);
    var v := Next(w, Act(c, false));
    ActAdvances(v, c, CleanRetry(k, r), true);
    RetryAdvance(v, c, k, r);
    RetryPutsOff(w.q, k, r, w.clock);
    RetryKeepsLedger(w.q, k, r, w.clock);
    PutBack(w.procs, c, CleanRetry(k, r));
  }

  lemma {:induction false} UnheardAsk(w: World, c: nat, p: Proc, k: Key, r: Row)
    requires Asks(p, k, r)
    ensures var v := Advance(w, c, p, false); v == w.(late := v.late, procs := w.procs[c := CleanRetry(k, r)])
  {}

  lemma {:induction false} RetryAdvance(w: World, c: nat, k: Key, r: Row)
    ensures Advance(w, c, CleanRetry(k, r), true) == Ends(CallQuota(w, Call.RetryCleanup(k, r)), c)
  {
    hide Ends, CallQuota;
  }

  lemma {:induction false} RetryKeepsLedger(q: Quota, k: Key, r: Row, now: int)
    ensures Do(q, Call.RetryCleanup(k, r), now).0.ledger == q.ledger
  {
    hide NextExpiry, RetryDelay;
  }

  /** A reservation whose answer is lost: the upload just opened is closed again. */
  lemma {:induction false} LostReservationCloses(w: World, pid: nat, k: Key, u: string, t: string, a: string, n: nat)
    requires pid !in w.procs && k !in w.made && k !in w.born && 1 <= n <= MAX_PLAINTEXT_BLOB
    ensures var v := RunFrom(w, [Create(pid, k, u, t, a, n), Act(pid, false), Act(pid, true)]);
      v.q == w.q && v.open == w.open - {k} && v.procs == w.procs && v.bucket == w.bucket
  {
    hide RunFrom, Next, Advance, ExpectedCipherBytes;
    ThreeSteps(w, Create(pid, k, u, t, a, n), Act(pid, false), Act(pid, true));
    CreateOpens(w, pid, k, u, t, a, n);
    var v := Next(w, Create(pid, k, u, t, a, n));
    ActAdvances(v, pid, CreateWait(k), false);
    WaitAdvance(v, pid, k);
    CreateAborts(Next(v, Act(pid, false)), pid, k, u);
    PutBack(w.open, k, Upload(u, a, map[]));
    PutBack(w.procs[pid := CreateWait(k)], pid, CreateAbort(k, u));
    PutBack(w.procs, pid, CreateWait(k));
  }

  lemma {:induction false} WaitAdvance(w: World, pid: nat, k: Key)
    requires k in w.made
    ensures Advance(w, pid, CreateWait(k), false) == At(w, pid, CreateAbort(k, w.made[k].uploadId))
  {
    hide At;
  }
}
