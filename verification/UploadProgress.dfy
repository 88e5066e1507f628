/** Where the handlers and the cleanup get to when they are heard: from every reachable
    state, whatever else has happened before. */
module UploadProgress {
  import opened Sums
  import opened QuotaModel
  import opened QuotaInvariants
  import opened QuotaProtocol
  import opened QuotaAnswers
  import opened UploadWorld
  import opened UploadSafety
  import opened UploadSteps
  import UploadTheorems

  // ---------------------------------------------------------------------------
  // An upload that can be completed

  /** `nums` is 1..N, names exactly the registered parts, and R2 holds every one. */
  ghost predicate HoldsAll(w: World, k: Key, u: string, nums: seq<int>) {
    && IsOpen(w, k, u)
    && (forall i :: 0 <= i < |nums| ==> nums[i] == i + 1)
    && (forall n :: n in PartsOf(w.q, k) <==> n in nums)
    && (forall n :: n in nums ==> n in w.open[k].parts)
  }

  /** The upload is recorded and stored with `size` bytes, and the task `pid` answers 204. */
  predicate Finished(w: World, pid: nat, k: Key, u: string, t: string, o: nat, size: nat) {
    && k !in w.q.rows && k !in w.open
    && k in w.bucket && w.bucket[k].size == size
    && ExactReceipt(w.q, k, u, t, o, size)
    && IsAt(w, pid, NoContent(k, u, t, o, size))
  }

  /** A row whose parts are complete: they are the numbers listed, and add up. */
  ghost predicate PartsComplete(q: Quota, k: Key, nums: seq<int>) {
    k in q.rows && ValidPartList(nums) && AllListed(q, k, nums) && 1 <= q.rows[k].bytes <= STORAGE_BUDGET
  }

  lemma {:induction false} FullListed(q: Quota, k: Key, nums: seq<int>)
    requires PartsOk(q) && k in q.rows && Full(q, k)
    requires forall i :: 0 <= i < |nums| ==> nums[i] == i + 1
    requires forall n :: n in PartsOf(q, k) <==> n in nums
    ensures PartsComplete(q, k, nums)
  {
    assert RowOk(q, k);
    var i := SomeKey(PartsOf(q, k));
    assert i in nums;
    assert nums[|nums| - 1] == |nums| && |nums| in nums;
  }

  lemma {:induction false} ClaimGranted(w: World, k: Key, nums: seq<int>, pid: nat, u: string, t: string)
    requires pid !in w.procs && Live(w.q, k, u, t, w.clock) && ValidToken(t) && PartsComplete(w.q, k, nums)
    ensures var o := w.q.rows[k].op + 1; var v := Next(w, CompleteRequest(pid, k, u, t, nums, true));
      && v == w.(q := v.q, procs := w.procs[pid := CompleteUpload(k, u, t, o, w.q.rows[k].bytes, nums)])
      && ClaimStands(v.q, k, u, t, o) && v.q.rows[k].bytes == w.q.rows[k].bytes && w.clock < v.q.rows[k].expiresAt
      && PartsOf(v.q, k) == PartsOf(w.q, k) && v.q.ledger == w.q.ledger
  {
    hide Do, Sum, MarkExpired, NextExpiry, ValidToken, Holds, IsOneTo, ValidPartList, AllListed;
    ClaimAnsweredExactly(w.q, k, u, t, nums, w.clock);
    ClaimOutcome(w.q, k, u, t, nums, w.clock);
    LiveIsMarked(w.q, k, u, t, w.clock);
  }

  lemma {:induction false} AssembledAndCommitting(w: World, pid: nat, k: Key, u: string, t: string, o: nat, size: nat, nums: seq<int>)
    requires Inv(w) && IsAt(w, pid, CompleteUpload(k, u, t, o, size, nums)) && CanComplete(w, k, u, nums)
    ensures var v := Next(w, Act(pid, true));
      && v.q == w.q && v.clock == w.clock && IsAt(v, pid, Committing(k, u, t, o, size, false, false))
      && k in v.bucket && v.bucket[k].size == size && k !in v.open
  {
    hide Inv, Next, Advance, Assembled, CanComplete, ProcOk;
    var p := CompleteUpload(k, u, t, o, size, nums);
    assert ProcOk(w, p) by { TaskOk(w, pid, p); }
    CompleteHeard(w, pid, p);
    ActAdvances(w, pid, p, true);
    CompletionAct(w, pid, p);
  }

  lemma {:induction false} TaskOk(w: World, pid: nat, p: Proc)
    requires Inv(w) && IsAt(w, pid, p)
    ensures ProcOk(w, p)
  {
    hide Shared, Budget, ProcOk, SentOk;
  }

  lemma {:induction false} CommitFinishes(w: World, pid: nat, k: Key, u: string, t: string, o: nat, size: nat, viaHead: bool, again: bool)
    requires Inv(w) && IsAt(w, pid, Committing(k, u, t, o, size, viaHead, again)) && ValidCall(Call.Commit(k, u, t, o, size))
    requires ClaimStands(w.q, k, u, t, o) && w.clock < w.q.rows[k].expiresAt && w.q.rows[k].bytes == size
    requires k in w.bucket && w.bucket[k].size == size && k !in w.open
    ensures Finished(Next(w, Act(pid, true)), pid, k, u, t, o, size)
  {
    hide Inv, Next, Advance, Do, PartsOk, ValidCall;
    var p, c := Committing(k, u, t, o, size, viaHead, again), Call.Commit(k, u, t, o, size);
    UploadTheorems.PartsOfReached(w);
    KeyFacts(w, k);
    CommitAcceptedExactly(w.q, k, u, t, o, size, w.clock);
    ActAdvances(w, pid, p, true);
    CommittingAct(w, pid, p, true);
    AcceptedCommitDrops(w.q, k, u, t, o, size, w.clock);
  }

  lemma {:induction false} AcceptedCommitDrops(q: Quota, k: Key, u: string, t: string, o: int, size: int, now: int)
    requires Has(q, k, u) && Do(q, Call.Commit(k, u, t, o, size), now).1.Accepted?
    ensures k !in Do(q, Call.Commit(k, u, t, o, size), now).0.rows
  {
    hide Promotable, NextExpiry, ValidCall;
  }

  /** From a live upload whose parts are all registered and stored: the complete request,
      R2's complete and the commit, all heard, end in a 204 with the exact receipt. */
  lemma {:induction false} LiveCompletes(w: World, pid: nat, k: Key, u: string, t: string, nums: seq<int>)
    requires Inv(w) && Grounded(w) && pid !in w.procs
    requires Live(w.q, k, u, t, w.clock) && PartsComplete(w.q, k, nums) && HoldsAll(w, k, u, nums)
    requires w.q.rows[k].op < 0x1F_FFFF_FFFF_FFFF
    ensures Finished(RunFrom(w, [CompleteRequest(pid, k, u, t, nums, true), Act(pid, true), Act(pid, true)]), pid, k, u, t,
                     w.q.rows[k].op + 1, w.q.rows[k].bytes)
  {
    hide Inv, Next, RunFrom, PartsComplete, RowGrounded, Finished, ValidToken;
    var s, o, size := CompleteRequest(pid, k, u, t, nums, true), w.q.rows[k].op + 1, w.q.rows[k].bytes;
    var v := Next(w, s);
    ThreeSteps(w, s, Act(pid, true), Act(pid, true));
    GoodToken(w, k);
    ClaimGranted(w, k, nums, pid, u, t);
    NextKeeps(w, s);
    AssembledAndCommitting(v, pid, k, u, t, o, size, nums);
    NextKeeps(v, Act(pid, true));
    CommitArguments(w.q, k, nums, u, t, o);
    CommitFinishes(Next(v, Act(pid, true)), pid, k, u, t, o, size, false, false);
  }

  lemma {:induction false} GoodToken(w: World, k: Key)
    requires Grounded(w) && k in w.q.rows
    ensures ValidToken(w.q.rows[k].token)
  {
    hide ValidToken;
    assert RowGrounded(w, k);
  }

  lemma {:induction false} CommitArguments(q: Quota, k: Key, nums: seq<int>, u: string, t: string, o: int)
    requires PartsComplete(q, k, nums) && ValidToken(t) && 1 <= o <= 0x1F_FFFF_FFFF_FFFF
    ensures ValidCall(Call.Commit(k, u, t, o, q.rows[k].bytes))
  {
    hide ValidToken, AllListed, ValidPartList;
  }

  lemma {:induction false} ThreeSteps(w: World, a: Step, b: Step, c: Step)
    ensures RunFrom(w, [a, b, c]) == Next(Next(Next(w, a), b), c)
  {
    hide Next;
    assert [a, b, c][1..] == [b, c] && [b, c][1..] == [c] && [c][1..] == [];
    var v := Next(w, a);
    assert RunFrom(w, [a, b, c]) == RunFrom(v, [b, c]);
    assert RunFrom(v, [b, c]) == RunFrom(Next(v, b), [c]);
    assert RunFrom(Next(v, b), [c]) == Next(Next(v, b), c);
  }

  /** Every complete request of a live upload whose parts are all there, in every reachable
      state, ends in a 204 with the exact receipt when the worker is heard. */
  lemma {:induction false} UploadCompletes(bucket: map<Key, Obj>, clock: int, steps: seq<Step>,
                                           pid: nat, k: Key, u: string, t: string, nums: seq<int>)
    requires var w := Reach(bucket, clock, steps);
      && pid !in w.procs && Live(w.q, k, u, t, w.clock) && AllListed(w.q, k, nums) && HoldsAll(w, k, u, nums)
      && w.q.rows[k].op < 0x1F_FFFF_FFFF_FFFF
    ensures var w := Reach(bucket, clock, steps);
      Finished(RunFrom(w, [CompleteRequest(pid, k, u, t, nums, true), Act(pid, true), Act(pid, true)]), pid, k, u, t,
               w.q.rows[k].op + 1, w.q.rows[k].bytes)
  {
    hide Reach, Inv, RunFrom, Finished, HoldsAll, AllListed, PartsOk;
    var w := Reach(bucket, clock, steps);
    ReachedGrounded(bucket, clock, steps);
    UploadTheorems.PartsOfReached(w);
    ListedComplete(w.q, k, nums);
    LiveCompletes(w, pid, k, u, t, nums);
  }

  lemma {:induction false} ListedComplete(q: Quota, k: Key, nums: seq<int>)
    requires PartsOk(q) && k in q.rows && AllListed(q, k, nums)
    ensures PartsComplete(q, k, nums)
  {
    hide Sum;
    assert RowOk(q, k);
  }

  // ---------------------------------------------------------------------------
  // After a failed complete

  /** What the worker turns to after asking R2 for the object. */
  lemma {:induction false} HeadActs(w: World, pid: nat, k: Key, u: string, t: string, o: nat, bytes: nat, heard: bool)
    requires IsAt(w, pid, HeadCheck(k, u, t, o, bytes))
    requires heard && k in w.bucket ==> w.bucket[k].size == bytes
    ensures Next(w, Act(pid, heard)) == At(w, pid,
      if !heard then DeferCompleted(k, u, t, o) else if k in w.bucket then Committing(k, u, t, o, bytes, true, false) else Restoring(k, u, t, o))
  {
    hide Next, Advance, At;
    ActAdvances(w, pid, HeadCheck(k, u, t, o, bytes), heard);
    HeadAdvance(w, pid, k, u, t, o, bytes, heard);
  }

  lemma {:induction false} HeadAdvance(w: World, pid: nat, k: Key, u: string, t: string, o: nat, bytes: nat, heard: bool)
    requires heard && k in w.bucket ==> w.bucket[k].size == bytes
    ensures Advance(w, pid, HeadCheck(k, u, t, o, bytes), heard) == At(w, pid,
      if !heard then DeferCompleted(k, u, t, o) else if k in w.bucket then Committing(k, u, t, o, bytes, true, false) else Restoring(k, u, t, o))
  {
    hide At;
  }

  /** What every reachable state says about a claimed upload whose complete failed. */
  lemma {:induction false} HeadFacts(w: World, pid: nat, k: Key, u: string, t: string, o: nat, bytes: nat)
    requires Inv(w) && IsAt(w, pid, HeadCheck(k, u, t, o, bytes)) && ClaimStands(w.q, k, u, t, o)
    ensures w.q.rows[k].bytes == bytes && 1 <= bytes <= STORAGE_BUDGET && o >= 1 && Full(w.q, k)
    ensures k in w.bucket ==> w.bucket[k].size == bytes && k !in w.open
    ensures k in w.open ==> k !in w.bucket
  {
    hide Inv, PartsOk, ProcOk;
    TaskOk(w, pid, HeadCheck(k, u, t, o, bytes));
    HeadOk(w, k, u, t, o, bytes);
    RowGranted(w, k);
    UploadTheorems.PartsOfReached(w);
    ClaimedRowFacts(w.q, k);
    if k in w.open { OpenHasNoObject(w, k); }
    if k in w.bucket { StoredIs(w, k); }
  }

  lemma {:induction false} HeadOk(w: World, k: Key, u: string, t: string, o: nat, bytes: nat)
    requires ProcOk(w, HeadCheck(k, u, t, o, bytes))
    ensures k in w.granted && bytes == w.granted[k]
  {}

  lemma {:induction false} ClaimedRowFacts(q: Quota, k: Key)
    requires PartsOk(q) && k in q.rows && WasClaimed(q.rows[k])
    ensures 1 <= q.rows[k].bytes <= STORAGE_BUDGET && q.rows[k].op >= 1 && Full(q, k)
  {
    assert RowOk(q, k);
  }

  lemma {:induction false} OpenHasNoObject(w: World, k: Key)
    requires Inv(w) && k in w.open
    ensures k !in w.bucket
  {
    hide QInv, Budget, TasksOk, OpenOk, CoveredIn, RowsMatch, LedgerMatches;
  }

  lemma {:induction false} RestoreActs(w: World, pid: nat, k: Key, u: string, t: string, o: nat)
    requires IsAt(w, pid, Restoring(k, u, t, o)) && ClaimStands(w.q, k, u, t, o)
    requires ValidToken(t) && 1 <= o <= 0x1F_FFFF_FFFF_FFFF
    ensures var v := Next(w, Act(pid, true));
      && v == w.(q := v.q, procs := w.procs - {pid})
      && Live(v.q, k, u, t, w.clock) && PartsOf(v.q, k) == PartsOf(w.q, k)
      && v.q.rows[k].op == o && v.q.rows[k].bytes == w.q.rows[k].bytes
  {
    hide Do, Next, Advance, ValidToken;
    ActAdvances(w, pid, Restoring(k, u, t, o), true);
    RestoringAdvance(w, pid, k, u, t, o);
    RestoreReopens(w.q, k, u, t, o, w.clock, w.clock);
    RestoreKeepsSize(w.q, k, u, t, o, w.clock);
  }

  lemma {:induction false} RestoringAdvance(w: World, pid: nat, k: Key, u: string, t: string, o: nat)
    ensures Advance(w, pid, Restoring(k, u, t, o), true) == Ends(CallQuota(w, Call.RestoreActive(k, u, t, o)), pid)
    ensures Advance(w, pid, DeferCompleted(k, u, t, o), true) == Ends(CallQuota(w, Call.DeferCompletion(k, u, t, o)), pid)
  {
    hide Ends, CallQuota;
  }

  lemma {:induction false} RestoreKeepsSize(q: Quota, k: Key, u: string, t: string, o: int, now: int)
    requires k in q.rows
    ensures var q' := Do(q, Call.RestoreActive(k, u, t, o), now).0; k in q'.rows && q'.rows[k].bytes == q.rows[k].bytes
  {
    hide NextExpiry, ValidToken;
  }

  /** A failed complete costs the client nothing but a retry. From every reachable state in
      which R2's complete has failed while the claim stands and the upload is still open
      with all its parts: the worker asks for the object, finds none and restores the
      upload, and the client's next complete request ends in a 204 with the exact receipt,
      under the next operation number. */
  lemma {:induction false} FailedCompleteIsRetried(bucket: map<Key, Obj>, clock: int, steps: seq<Step>, pid: nat,
                                                   k: Key, u: string, t: string, o: nat, bytes: nat, nums: seq<int>)
    requires var w := Reach(bucket, clock, steps);
      && IsAt(w, pid, HeadCheck(k, u, t, o, bytes)) && ClaimStands(w.q, k, u, t, o) && HoldsAll(w, k, u, nums)
      && o < 0x1F_FFFF_FFFF_FFFF
    ensures var retry := CompleteRequest(pid, k, u, t, nums, true);
      Finished(RunFrom(Reach(bucket, clock, steps), [Act(pid, true), Act(pid, true), retry, Act(pid, true), Act(pid, true)]),
               pid, k, u, t, o + 1, bytes)
  {
    hide Reach, Inv, Grounded, RunFrom, Next, Finished, Full, ValidToken;
    var w := Reach(bucket, clock, steps);
    var retry := CompleteRequest(pid, k, u, t, nums, true);
    ReachedGrounded(bucket, clock, steps);
    FiveSteps(w, Act(pid, true), Act(pid, true), retry, Act(pid, true), Act(pid, true));
    HeadFacts(w, pid, k, u, t, o, bytes);
    GoodToken(w, k);
    HeadActs(w, pid, k, u, t, o, bytes, true);
    var v := Next(w, Act(pid, true));
    NextKeeps(w, Act(pid, true));
    GroundedStays(w, Act(pid, true));
    RestoreActs(v, pid, k, u, t, o);
    var x := Next(v, Act(pid, true));
    NextKeeps(v, Act(pid, true));
    GroundedStays(v, Act(pid, true));
    RestoredListed(w, x, k, nums);
    LiveCompletes(x, pid, k, u, t, nums);
    ThreeSteps(x, retry, Act(pid, true), Act(pid, true));
  }

  lemma {:induction false} RestoredListed(w: World, x: World, k: Key, nums: seq<int>)
    requires Inv(w) && k in w.q.rows && Full(w.q, k) && k in x.q.rows
    requires PartsOf(x.q, k) == PartsOf(w.q, k) && x.q.rows[k].bytes == w.q.rows[k].bytes
    requires forall i :: 0 <= i < |nums| ==> nums[i] == i + 1
    requires forall n :: n in PartsOf(w.q, k) <==> n in nums
    ensures PartsComplete(x.q, k, nums)
  {
    hide Inv, PartsOk, Full;
    UploadTheorems.PartsOfReached(w);
    FullListed(w.q, k, nums);
  }

  /** Where only R2's answer was lost the worker finds the object and commits it, without
      another request, while the claim's grace period lasts. */
  lemma {:induction false} LostAnswerCompletes(bucket: map<Key, Obj>, clock: int, steps: seq<Step>, pid: nat,
                                               k: Key, u: string, t: string, o: nat, bytes: nat)
    requires var w := Reach(bucket, clock, steps);
      && IsAt(w, pid, HeadCheck(k, u, t, o, bytes)) && ClaimStands(w.q, k, u, t, o) && k in w.bucket
      && w.clock < w.q.rows[k].expiresAt && o <= 0x1F_FFFF_FFFF_FFFF
    ensures Finished(RunFrom(Reach(bucket, clock, steps), Acts(pid, 2)), pid, k, u, t, o, bytes)
  {
    hide Reach, Inv, Grounded, RunFrom, Next, Finished, Full, ValidToken;
    var w := Reach(bucket, clock, steps);
    ReachedGrounded(bucket, clock, steps);
    TwoActs(w, pid);
    HeadFacts(w, pid, k, u, t, o, bytes);
    GoodToken(w, k);
    HeadActs(w, pid, k, u, t, o, bytes, true);
    NextKeeps(w, Act(pid, true));
    CommitFinishes(Next(w, Act(pid, true)), pid, k, u, t, o, bytes, true, false);
  }

  lemma {:induction false} TwoActs(w: World, pid: nat)
    ensures RunFrom(w, Acts(pid, 2)) == Next(Next(w, Act(pid, true)), Act(pid, true))
  {
    hide Next;
    RunFromFirst(w, Act(pid, true), Acts(pid, 1));
    RunFromFirst(Next(w, Act(pid, true)), Act(pid, true), Acts(pid, 0));
    NothingLeft(Next(Next(w, Act(pid, true)), Act(pid, true)));
  }

  lemma {:induction false} TwoSteps(w: World, a: Step, b: Step)
    ensures RunFrom(w, [a, b]) == Next(Next(w, a), b)
  {
    hide Next;
    assert [a, b][1..] == [b] && [b][1..] == [];
    assert RunFrom(Next(w, a), [b]) == Next(Next(w, a), b);
  }

  /** Where the question for the object is lost too, nothing is reopened and nothing is
      deleted: the row goes into recovery, due after five seconds. */
  lemma {:induction false} LostHeadIsRecovered(bucket: map<Key, Obj>, clock: int, steps: seq<Step>, pid: nat,
                                               k: Key, u: string, t: string, o: nat, bytes: nat)
    requires var w := Reach(bucket, clock, steps);
      IsAt(w, pid, HeadCheck(k, u, t, o, bytes)) && ClaimStands(w.q, k, u, t, o) && o <= 0x1F_FFFF_FFFF_FFFF
    ensures var w := Reach(bucket, clock, steps); var v := RunFrom(w, [Act(pid, false), Act(pid, true)]);
      && v == w.(q := v.q, procs := w.procs - {pid})
      && k in v.q.rows && v.q.rows[k] == w.q.rows[k].(phase := CompletionCleanup, expiresAt := w.clock + 5000, retries := 0)
  {
    hide Reach, Inv, Grounded, RunFrom, Next, Advance, Do, Full, ValidToken;
    var w := Reach(bucket, clock, steps);
    ReachedGrounded(bucket, clock, steps);
    TwoSteps(w, Act(pid, false), Act(pid, true));
    HeadFacts(w, pid, k, u, t, o, bytes);
    GoodToken(w, k);
    HeadActs(w, pid, k, u, t, o, bytes, false);
    var v := Next(w, Act(pid, false));
    ActAdvances(v, pid, DeferCompleted(k, u, t, o), true);
    RestoringAdvance(v, pid, k, u, t, o);
    DeferralHandsOver(w.q, k, u, t, o, w.clock);
    assert w.procs[pid := DeferCompleted(k, u, t, o)] - {pid} == w.procs - {pid};
  }
}
