/** When a receipt outlives its object: the steps that bring it about, and the states
    from which it can still happen. */
module UploadOrphans {
  import opened Sums
  import opened QuotaModel
  import opened QuotaInvariants
  import opened QuotaProtocol
  import opened UploadWorld
  import opened UploadSafety
  import opened UploadSteps
  import UploadTheorems

  /** The ledger holds a receipt for an object that is not stored. */
  predicate Orphan(w: World, k: Key) { k in w.q.ledger && k !in w.bucket }

  /** From any reachable state, by any step: a receipt without its object comes about if
      and only if the step deletes the object of a receipt, or writes the receipt of an
      object that is already gone. */
  lemma {:induction false} OrphanedExactly(bucket: map<Key, Obj>, clock: int, steps: seq<Step>, s: Step, k: Key)
    requires !Orphan(Reach(bucket, clock, steps), k)
    ensures var w := Reach(bucket, clock, steps);
      Orphan(Next(w, s), k) <==>
        || (k in w.q.ledger && Removes(w, s, k))
        || (k !in w.bucket && Records(w, s, k))
  {
    hide Reach, Inv, Next, Removes, Records, CallOf;
    var w := Reach(bucket, clock, steps);
    Reached(bucket, clock, steps);
    if k in w.q.ledger {
      StepBucket(w, s, k);
      if Removes(w, s, k) { RemovingLeavesQuota(w, s, k); }
      KeyFacts(w, k);
      RowlessNotRecorded(w, s, k);
    } else {
      StepLedger(w, s, k);
      if Records(w, s, k) { RecordsCalls(w, s, k); RecordingLeavesBucket(w, s); }
    }
  }

  // ---------------------------------------------------------------------------
  // A receipt and its object, both there: what can still part them

  predicate Recorded(w: World, k: Key) { k in w.q.ledger && k in w.bucket }

  /** The task's own next awaits end with the deletion of a recorded object: it holds a
      delete, or it is a cleanup that has yet to find the object or to be refused its
      promotion, or a worker whose commit the ledger refuses. */
  ghost predicate Threatens(q: Quota, k: Key, p: Proc) {
    match p
    case DeleteObject(j, _, _, _) => j == k
    case CleanDelete(j, _) => j == k
    case CleanHead(j, _) => j == k
    case CleanPromote(j, _, _) => j == k
    case Committing(j, u, t, o, size, viaHead, _) =>
      j == k && !viaHead && !(ValidCall(Call.Commit(k, u, t, o, size)) && ExactReceipt(q, k, u, t, o, size))
    case _ => false
  }

  ghost predicate Threatened(w: World, k: Key) {
    ToDelete(k) in w.late || exists pid :: pid in w.procs && Threatens(w.q, k, w.procs[pid])
  }

  predicate SameReceipt(q: Quota, q': Quota, k: Key) { k in q.ledger && k in q'.ledger && q'.ledger[k] == q.ledger[k] }

  /** While its object stays a receipt stays, the same: no scan drops it. */
  lemma {:induction false} RecordedStays(w: World, s: Step, k: Key)
    requires Inv(w) && Recorded(w, k) && !Removes(w, s, k)
    ensures Recorded(Next(w, s), k) && SameReceipt(w.q, Next(w, s).q, k)
  {
    hide Inv, Next, Removes, SameOwner, PartsGrow;
    KeyFacts(w, k);
    StepBucket(w, s, k);
    NextKeeps(w, s);
    UploadTheorems.StartStays(w, s);
    RowAfterStep(w, s, k);
    KeyFacts(Next(w, s), k);
  }

  lemma {:induction false} ThreatReadsReceipt(q: Quota, q': Quota, k: Key, p: Proc)
    requires SameReceipt(q, q', k)
    ensures Threatens(q', k, p) <==> Threatens(q, k, p)
  {}

  /** Without a row a commit is acknowledged exactly on its receipt. */
  lemma {:induction false} RowlessCommit(q: Quota, k: Key, u: string, t: string, o: int, size: int, now: int)
    requires k !in q.rows
    ensures Do(q, Call.Commit(k, u, t, o, size), now).1.Accepted? <==>
      ValidCall(Call.Commit(k, u, t, o, size)) && ExactReceipt(q, k, u, t, o, size)
  {
    hide Promotable, Promote;
  }

  /** A task that is no threat does not turn into one. */
  lemma {:induction false} NoNewThreat(w: World, p: Proc, p': Proc, k: Key)
    requires Inv(w) && Recorded(w, k) && TaskGrounded(w, p) && Follows(w, p, p') && Threatens(w.q, k, p')
    ensures Threatens(w.q, k, p)
  {
    hide Inv, Do, ValidToken;
    KeyFacts(w, k);
    if p.Committing? { RowlessCommit(w.q, p.key, p.uploadId, p.token, p.op, p.size, w.clock); }
  }

  lemma {:induction false} PlainHarmless(q: Quota, k: Key, p: Proc)
    requires Plain(p)
    ensures !Threatens(q, k, p)
  {}

  lemma {:induction false} BegunElsewhere(w: World, s: Step, pid: nat, p: Proc, k: Key)
    requires Begun(w, s, pid, p) && k !in w.q.rows
    ensures !Threatens(w.q, k, p)
  {}

  lemma {:induction false} DeletingThreatens(q: Quota, k: Key, p: Proc)
    requires Deleting(p, k)
    ensures Threatens(q, k, p)
  {}

  lemma {:induction false} TaskStaysHarmless(w: World, s: Step, pid: nat, p: Proc, k: Key)
    requires Inv(w) && Grounded(w) && Recorded(w, k) && IsAt(Next(w, s), pid, p) && Threatens(w.q, k, p)
    ensures Threatened(w, k)
  {
    hide Inv, Next, Threatens, Follows, TaskGrounded, RowGrounded, Begun, Plain;
    KeyFacts(w, k);
    StepTask(w, s, pid, p);
    if Plain(p) { PlainHarmless(w.q, k, p); }
    if Begun(w, s, pid, p) { BegunElsewhere(w, s, pid, p, k); }
    if Took(w, s, pid, p) { NoNewThreat(w, w.procs[pid], p, k); }
  }

  /** An unthreatened receipt keeps its object, and stays unthreatened. */
  lemma {:induction false} UnthreatenedStays(w: World, s: Step, k: Key)
    requires Inv(w) && Grounded(w) && Recorded(w, k) && !Threatened(w, k) && s != LifecycleDeletes(k)
    ensures Recorded(Next(w, s), k) && !Threatened(Next(w, s), k)
  {
    hide Inv, Next, Threatens, Grounded, Deleting, Recorded;
    if s.Act? && s.pid in w.procs && Deleting(w.procs[s.pid], k) { DeletingThreatens(w.q, k, w.procs[s.pid]); }
    RecordedStays(w, s, k);
    if ToDelete(k) in Next(w, s).late { StepLate(w, s, ToDelete(k)); }
    forall pid | pid in Next(w, s).procs ensures !Threatens(Next(w, s).q, k, Next(w, s).procs[pid]) {
      var p := Next(w, s).procs[pid];
      ThreatReadsReceipt(w.q, Next(w, s).q, k, p);
      if Threatens(w.q, k, p) { TaskStaysHarmless(w, s, pid, p, k); }
    }
  }

  predicate NoLifecycle(steps: seq<Step>, k: Key) { LifecycleDeletes(k) !in steps }

  lemma {:induction false} UnthreatenedForEver(w: World, steps: seq<Step>, k: Key)
    requires Inv(w) && Grounded(w) && Recorded(w, k) && !Threatened(w, k) && NoLifecycle(steps, k)
    ensures Recorded(RunFrom(w, steps), k)
    decreases |steps|
  {
    hide Inv, Next, Grounded, Recorded, Threatened;
    if steps != [] {
      UnthreatenedStays(w, steps[0], k);
      NextKeeps(w, steps[0]);
      GroundedStays(w, steps[0]);
      UnthreatenedForEver(Next(w, steps[0]), steps[1..], k);
    }
  }

  // ---------------------------------------------------------------------------
  // Carrying a threat out

  lemma {:induction false} ActsOnly(pid: nat, n: nat, k: Key)
    ensures NoLifecycle(Acts(pid, n), k)
  {
    if n > 0 { ActsOnly(pid, n - 1, k); }
  }

  function Distance(p: Proc): nat {
    if p.CleanHead? then 2 else if p.CleanPromote? || p.Committing? then 1 else 0
  }

  lemma {:induction false} DeleteLands(w: World, k: Key, pid: nat, p: Proc)
    requires Recorded(w, k) && IsAt(w, pid, p) && Deleting(p, k)
    ensures Orphan(Next(w, Act(pid, true)), k)
  {
    hide Next;
    StepBucket(w, Act(pid, true), k);
    RemovingLeavesQuota(w, Act(pid, true), k);
  }

  lemma {:induction false} RowlessRecovery(q: Quota, k: Key, r: Row, size: nat, now: int)
    requires k !in q.rows
    ensures !Do(q, Call.PromoteRecovered(k, r, size), now).1.Accepted?
  {}

  lemma {:induction false} CommitNearer(w: World, k: Key, pid: nat, u: string, t: string, o: nat, size: nat, again: bool)
    requires k !in w.q.rows && IsAt(w, pid, Committing(k, u, t, o, size, false, again))
    requires !(ValidCall(Call.Commit(k, u, t, o, size)) && ExactReceipt(w.q, k, u, t, o, size))
    ensures IsAt(Next(w, Act(pid, true)), pid, DeleteObject(k, u, t, o))
  {
    hide CallQuota, Do, Next, Advance, ValidCall;
    var p := Committing(k, u, t, o, size, false, again);
    ActAdvances(w, pid, p, true);
    RowlessCommit(w.q, k, u, t, o, size, w.clock);
    CommittingAct(w, pid, p, true);
  }

  predicate StoredAs(w: World, k: Key, size: nat) { k in w.bucket && w.bucket[k].size == size }

  /** The heard steps of a cleanup task that finds the object. */
  lemma {:induction false} CleanupSteps(w: World, pid: nat, k: Key, r: Row, size: nat)
    ensures StoredAs(w, k, size) ==> Advance(w, pid, CleanHead(k, r), true) == At(w, pid, CleanPromote(k, r, size))
    ensures var c := Call.PromoteRecovered(k, r, size);
      Advance(w, pid, CleanPromote(k, r, size), true) ==
        if Answer(w, c).Accepted? then Ends(CallQuota(w, c), pid) else At(w, pid, CleanDelete(k, r))
  {
    hide At, Ends, CallQuota, Answer, Delete;
  }

  lemma {:induction false} FoundNearer(w: World, k: Key, r: Row, size: nat, pid: nat)
    requires StoredAs(w, k, size) && IsAt(w, pid, CleanHead(k, r))
    ensures Next(w, Act(pid, true)) == At(w, pid, CleanPromote(k, r, size))
  {
    hide Next, Advance, At;
    ActAdvances(w, pid, CleanHead(k, r), true);
    CleanupSteps(w, pid, k, r, size);
  }

  lemma {:induction false} RefusedNearer(w: World, k: Key, r: Row, size: nat, pid: nat)
    requires k !in w.q.rows && IsAt(w, pid, CleanPromote(k, r, size))
    ensures Next(w, Act(pid, true)) == At(w, pid, CleanDelete(k, r))
  {
    hide Next, Advance, At, Do;
    ActAdvances(w, pid, CleanPromote(k, r, size), true);
    CleanupSteps(w, pid, k, r, size);
    RowlessRecovery(w.q, k, r, size, w.clock);
  }

  /** A threat whatever the ledger holds. */
  predicate Sure(p: Proc, k: Key) { Deleting(p, k) || ((p.CleanHead? || p.CleanPromote?) && p.key == k) }

  /** One await brings the task nearer to its delete. */
  lemma {:induction false} ThreatNearer(w: World, k: Key, pid: nat, p: Proc) returns (p': Proc)
    requires k in w.bucket && k !in w.q.rows && IsAt(w, pid, p) && Threatens(w.q, k, p) && Distance(p) > 0
    ensures IsAt(Next(w, Act(pid, true)), pid, p') && Distance(p') + 1 == Distance(p) && Sure(p', k)
  {
    hide Next, ValidCall, ExactReceipt;
    match p {
      case Committing(_, u, t, o, size, _, again) =>
        CommitNearer(w, k, pid, u, t, o, size, again);
        p' := DeleteObject(k, u, t, o);
      case CleanHead(_, r) =>
        FoundNearer(w, k, r, w.bucket[k].size, pid);
        p' := CleanPromote(k, r, w.bucket[k].size);
      case CleanPromote(_, r, size) =>
        RefusedNearer(w, k, r, size, pid);
        p' := CleanDelete(k, r);
    }
  }

  lemma {:induction false} ThreatLands(w: World, k: Key, pid: nat, p: Proc)
    requires Inv(w) && Recorded(w, k) && IsAt(w, pid, p) && Threatens(w.q, k, p)
    ensures Orphan(RunFrom(w, Acts(pid, Distance(p) + 1)), k)
    decreases Distance(p)
  {
    hide Inv, Next, RunFrom, Orphan, IsAt;
    var d := Distance(p);
    RunFromFirst(w, Act(pid, true), Acts(pid, d));
    if d == 0 {
      DeleteLands(w, k, pid, p);
      NothingLeft(Next(w, Act(pid, true)));
    } else {
      KeyFacts(w, k);
      var p' := ThreatNearer(w, k, pid, p);
      RecordedStays(w, Act(pid, true), k) by { NotYetDeleting(w, k, pid, p); }
      NextKeeps(w, Act(pid, true));
      ThreatLands(Next(w, Act(pid, true)), k, pid, p');
    }
  }

  lemma {:induction false} NotYetDeleting(w: World, k: Key, pid: nat, p: Proc)
    requires IsAt(w, pid, p) && Distance(p) > 0
    ensures !Removes(w, Act(pid, true), k)
  {}

  // ---------------------------------------------------------------------------
  // An object whose row is still there

  /** No receipt will be written for the row: it is being aborted, or has expired
      before it was completed. */
  predicate Doomed(r: Row, now: int) { r.phase.AbortPending? || (r.phase.Active? && r.expiresAt <= now) }

  /** A cleanup retries only rows in a cleanup phase. */
  predicate RetryOk(c: Call) { c.RetryCleanup? ==> InCleanup(c.row.phase) }

  predicate DoomedRow(q: Quota, k: Key, now: int) { k in q.rows ==> Doomed(q.rows[k], now) }

  predicate AbortingOnly(q: Quota, k: Key) { k in q.rows ==> q.rows[k].phase.AbortPending? }

  predicate SameRow(q: Quota, q': Quota, k: Key) { k in q.rows && k in q'.rows ==> q'.rows[k] == q.rows[k] }

  predicate ActiveRow(q: Quota, k: Key) { k in q.rows && q.rows[k].phase.Active? }

  /** The calls that do not first mark expired rows leave an active row alone. */
  lemma {:induction false} ActiveLeftAlone(q: Quota, c: Call, now: int, k: Key)
    requires ValidCall(c) && !MarksExpired(c) && !Reserves(c, k) && RetryOk(c) && ActiveRow(q, k)
    ensures SameRow(q, Body(q, c, now).0, k)
  {
    hide GlobalRoom, ActorRoom, Unsettled, Promotable, NextExpiry, ValidCall;
  }

  lemma {:induction false} AbortingAfterCall(q: Quota, c: Call, now: int, k: Key)
    requires PartsOk(q) && ValidCall(c) && k in q.rows && AbortingOnly(q, k)
    ensures AbortingOnly(Body(q, c, now).0, k)
  {
    hide Body, PartsOk, PartsGrow, SameOwner, GlobalRoom, ActorRoom, Sum, ValidCall;
    BodyEffect(q, c, now);
  }

  lemma {:induction false} MarkedDoomed(q: Quota, now: int, k: Key)
    requires k in q.rows && DoomedRow(q, k, now)
    ensures k in MarkExpired(q, now).rows && AbortingOnly(MarkExpired(q, now), k)
  {
    if q.rows[k].phase.Active? { assert AnyDue(q, now); }
  }

  lemma {:induction false} DoomedAfterCall(q: Quota, c: Call, now: int, k: Key)
    requires PartsOk(q) && !Reserves(c, k) && RetryOk(c) && k in q.rows && DoomedRow(q, k, now)
    ensures DoomedRow(Do(q, c, now).0, k, now)
  {
    hide Body, PartsOk, Marked, NextExpiry, ValidCall;
    if ValidCall(c) { DoomedAfterBody(q, c, now, k); }
  }

  lemma {:induction false} DoomedAfterBody(q: Quota, c: Call, now: int, k: Key)
    requires PartsOk(q) && ValidCall(c) && !Reserves(c, k) && RetryOk(c) && k in q.rows && DoomedRow(q, k, now)
    ensures DoomedRow(Body(Marked(q, c, now), c, now).0, k, now)
  {
    hide Body, PartsOk, MarkExpired, ValidCall;
    if MarksExpired(c) {
      MarkExpiredKeeps(q, now);
      MarkedDoomed(q, now, k);
      AbortingAfterCall(MarkExpired(q, now), c, now, k);
    } else if q.rows[k].phase.Active? {
      ActiveLeftAlone(q, c, now, k);
    } else {
      AbortingAfterCall(q, c, now, k);
    }
  }

  ghost predicate DoomedKey(w: World, k: Key) {
    && k in w.granted && k !in w.q.ledger
    && DoomedRow(w.q, k, w.clock)
  }

  lemma {:induction false} RetriesClean(w: World, s: Step)
    requires Grounded(w)
    ensures CallOf(w, s).Some? ==> RetryOk(CallOf(w, s).value)
  {
    hide RowGrounded, Aborting, ScanOver;
    if s.Act? && s.pid in w.procs { assert TaskGrounded(w, w.procs[s.pid]); }
    if s.LandLate? && s.sent in w.late { assert !IsRetry(s.sent); }
  }

  lemma {:induction false} DoomedStays(w: World, s: Step, k: Key)
    requires Inv(w) && Grounded(w) && DoomedKey(w, k)
    ensures DoomedKey(Next(w, s), k)
  {
    hide Inv, Next, CallOf, Do, Grounded, SameOwner, PartsGrow, RetryOk;
    GrantedStays(w, s, k);
    RowAfterStep(w, s, k);
    ClockForward(w, s);
    StepQuota(w, s);
    if k in w.q.rows && CallOf(w, s).Some? {
      NeverReservedAgain(w, s, k);
      UploadTheorems.PartsOfReached(w);
      RetriesClean(w, s);
      DoomedAfterCall(w.q, CallOf(w, s).value, w.clock, k);
    }
  }

  lemma {:induction false} DoomedForEver(w: World, steps: seq<Step>, k: Key)
    requires Inv(w) && Grounded(w) && DoomedKey(w, k)
    ensures k !in RunFrom(w, steps).q.ledger
    decreases |steps|
  {
    hide Inv, Next, Grounded;
    if steps != [] {
      DoomedStays(w, steps[0], k);
      NextKeeps(w, steps[0]);
      GroundedStays(w, steps[0]);
      DoomedForEver(Next(w, steps[0]), steps[1..], k);
    }
  }

  lemma {:induction false} OlderNeverRecorded(w: World, steps: seq<Step>, k: Key)
    requires Inv(w) && k in w.start
    ensures k !in RunFrom(w, steps).q.ledger
  {
    hide Inv, RunFrom;
    RunFromKeeps(w, steps);
    UploadTheorems.StartIsBucket(w, steps);
    KeyFacts(RunFrom(w, steps), k);
  }

  // ---------------------------------------------------------------------------
  // Two cleanups of one upload

  lemma {:induction false} UnusedPid(procs: map<nat, Proc>) returns (n: nat)
    ensures forall pid :: pid in procs ==> pid < n
    decreases |procs|
  {
    n := 0;
    if procs != map[] {
      var pid :| pid in procs;
      assert (procs - {pid}).Keys == procs.Keys - {pid};
      n := UnusedPid(procs - {pid});
      n := if n <= pid then pid + 1 else n;
      assert forall j :: j in procs ==> j == pid || j in procs - {pid};
    }
  }

  /** An upload in the claimed part of its life whose object is stored. */
  predicate Claimed(w: World, k: Key) {
    k in w.bucket && k in w.q.rows && (w.q.rows[k].phase.Completing? || w.q.rows[k].phase.CompletionCleanup?)
  }

  predicate ClaimedUntil(w: World, k: Key, t: int) { Claimed(w, k) && w.q.rows[k].expiresAt <= t }

  /** The row is due for recovery. */
  ghost predicate RowReady(w: World, k: Key, r: Row) {
    && PartsOk(w.q) && k in w.q.rows && w.q.rows[k] == r && k !in w.q.ledger
    && r.phase.CompletionCleanup? && r.expiresAt <= w.clock
  }

  /** ... and its object is stored, with the reserved size. */
  ghost predicate Ready(w: World, k: Key, r: Row) { RowReady(w, k, r) && StoredAs(w, k, r.bytes) }

  lemma {:induction false} ClaimMarked(q: Quota, k: Key, now: int) returns (r: Row)
    requires k in q.rows && (q.rows[k].phase.Completing? || q.rows[k].phase.CompletionCleanup?) && q.rows[k].expiresAt <= now
    ensures var m := MarkExpired(q, now);
      && k in m.rows && m.rows[k] == r && r.phase.CompletionCleanup? && r.expiresAt <= now && r.bytes == q.rows[k].bytes
      && m.ledger == q.ledger
  {
    r := MarkExpired(q, now).rows[k];
    if q.rows[k].phase.Completing? { assert AnyDue(q, now); }
  }

  lemma {:induction false} PassesAndMarks(w: World, ms: nat)
    ensures Next(w, Pass(ms)) == w.(clock := w.clock + ms)
    ensures Next(w, ExpireRows) == w.(q := MarkExpired(w.q, w.clock))
  {
    hide MarkExpired;
  }

  /** The claim's grace period passes and the row is due for recovery. */
  lemma {:induction false} BecomesReady(w: World, k: Key, ms: nat) returns (r: Row)
    requires Inv(w) && ClaimedUntil(w, k, w.clock + ms)
    ensures var v := Next(Next(w, Pass(ms)), ExpireRows);
      Ready(v, k, r) && v == w.(clock := w.clock + ms, q := v.q)
  {
    hide Inv, MarkExpired, Next, PartsOk;
    PassesAndMarks(w, ms);
    PassesAndMarks(w.(clock := w.clock + ms), 0);
    r := ClaimMarked(w.q, k, w.clock + ms);
    UploadTheorems.PartsOfReached(w);
    MarkExpiredKeeps(w.q, w.clock + ms);
    KeyFacts(w, k);
    RowGranted(w, k);
    StoredIs(w, k);
  }

  lemma {:induction false} CleanupStartsAt(w: World, k: Key, r: Row, c: nat)
    requires RowReady(w, k, r) && c !in w.procs
    ensures Next(w, CleanupStarts(c, k)) == At(w, c, CleanHead(k, r))
  {
    hide PartsOk;
  }

  /** A cleanup starts and finds the object. */
  lemma {:induction false} CleanupFinds(w: World, k: Key, r: Row, c: nat)
    requires Ready(w, k, r) && c !in w.procs
    ensures Next(Next(w, CleanupStarts(c, k)), Act(c, true)) == At(w, c, CleanPromote(k, r, r.bytes))
  {
    hide PartsOk, Next;
    CleanupStartsAt(w, k, r, c);
    FoundNearer(Next(w, CleanupStarts(c, k)), k, r, r.bytes, c);
    assert w.procs[c := CleanHead(k, r)][c := CleanPromote(k, r, r.bytes)] == w.procs[c := CleanPromote(k, r, r.bytes)];
  }

  lemma {:induction false} RecoveryAccepted(q: Quota, k: Key, r: Row, now: int)
    requires PartsOk(q) && k in q.rows && q.rows[k] == r && r.phase.CompletionCleanup? && k !in q.ledger
    ensures var (q', reply) := Do(q, Call.PromoteRecovered(k, r, r.bytes), now); reply.Accepted? && k in q'.ledger
  {
    hide PartsOk, Sum;
    PromotionFailsExactly(q, k, r.bytes);
  }

  /** A cleanup that found the object with its reserved size promotes the row, whether
      or not the object is still there. */
  lemma {:induction false} CleanupPromotes(w: World, k: Key, r: Row, c: nat)
    requires RowReady(w, k, r) && IsAt(w, c, CleanPromote(k, r, r.bytes))
    ensures var v := Next(w, Act(c, true));
      v == w.(q := v.q, procs := w.procs - {c}) && k in v.q.ledger
  {
    hide Do, PartsOk, Next, Advance;
    RecoveryAccepted(w.q, k, r, w.clock);
    ActAdvances(w, c, CleanPromote(k, r, r.bytes), true);
    CleanupSteps(w, c, k, r, r.bytes);
  }

  /** One cleanup task has found the object; another task will delete it in any case. */
  ghost predicate Racing(w: World, k: Key, r: Row, x: nat, p: Proc, c: nat) {
    Ready(w, k, r) && x != c && IsAt(w, x, p) && Sure(p, k) && IsAt(w, c, CleanPromote(k, r, r.bytes))
  }

  /** The cleanup promotes the row, then the other task deletes the object. */
  lemma {:induction false} RaceLost(w: World, k: Key, r: Row, x: nat, p: Proc, c: nat)
    requires Inv(w) && Racing(w, k, r, x, p, c)
    ensures Orphan(RunFrom(w, [Act(c, true)] + Acts(x, Distance(p) + 1)), k)
  {
    hide Inv, Next, RunFrom, Orphan, PartsOk;
    RunFromFirst(w, Act(c, true), Acts(x, Distance(p) + 1));
    CleanupPromotes(w, k, r, c);
    NextKeeps(w, Act(c, true));
    ThreatLands(Next(w, Act(c, true)), k, x, p);
  }

  /** Two cleanups start on the due row, and one of them has found the object. */
  function TwoCleanups(k: Key, ms: nat, a: nat, b: nat): seq<Step> {
    [Pass(ms), ExpireRows, CleanupStarts(a, k), Act(a, true), CleanupStarts(b, k)]
  }

  /** A claimed upload can always lose its object to two overlapping cleanups: both find
      it, one promotes the row, the other, refused, deletes the object. */
  lemma {:induction false} TwoCleanupsLose(w: World, k: Key, ms: nat, a: nat, b: nat)
    requires Inv(w) && ClaimedUntil(w, k, w.clock + ms) && a != b && a !in w.procs && b !in w.procs
    ensures Orphan(RunFrom(w, TwoCleanups(k, ms, a, b) + ([Act(a, true)] + Acts(b, 3))), k)
  {
    hide Inv, Next, RunFrom, Orphan, PartsOk, ClaimedUntil;
    FiveSteps(w, Pass(ms), ExpireRows, CleanupStarts(a, k), Act(a, true), CleanupStarts(b, k));
    RunFromAppend(w, TwoCleanups(k, ms, a, b), [Act(a, true)] + Acts(b, 3));
    RunFromKeeps(w, TwoCleanups(k, ms, a, b));
    var r := BecomesReady(w, k, ms);
    var v := Next(Next(w, Pass(ms)), ExpireRows);
    CleanupFinds(v, k, r, a);
    var x := Next(Next(v, CleanupStarts(a, k)), Act(a, true));
    CleanupStartsAt(x, k, r, b);
    RaceLost(Next(x, CleanupStarts(b, k)), k, r, b, CleanHead(k, r), a);
  }

  /** The part list of an upload whose parts are complete. */
  function Numbers(n: nat): seq<int> { seq(n, i => i + 1) }

  lemma {:induction false} FullHasNumbers(q: Quota, k: Key) returns (n: nat)
    requires PartsOk(q) && k in q.rows && Full(q, k)
    ensures IsOneTo(PartsOf(q, k).Keys, n) && ValidPartList(Numbers(n)) && Sum(PartsOf(q, k)) == q.rows[k].bytes
  {
    assert RowOk(q, k);
    n :| IsOneTo(PartsOf(q, k).Keys, n);
    var i := SomeKey(PartsOf(q, k));
    assert i in PartsOf(q, k).Keys;
    assert n in PartsOf(q, k).Keys;
  }

  lemma {:induction false} MarkedUnexpired(q: Quota, now: int, k: Key)
    requires k in q.rows && now < q.rows[k].expiresAt
    ensures var m := MarkExpired(q, now);
      k in m.rows && m.rows[k] == q.rows[k] && m.parts == q.parts && m.ledger == q.ledger
  {}

  lemma {:induction false} ClaimSucceeds(q: Quota, k: Key, now: int, n: nat)
    requires k in q.rows && q.rows[k].phase.Active? && now < q.rows[k].expiresAt && ValidToken(q.rows[k].token)
    requires IsOneTo(PartsOf(q, k).Keys, n) && ValidPartList(Numbers(n)) && Sum(PartsOf(q, k)) == q.rows[k].bytes
    ensures var (q', reply) := Do(q, Call.ClaimComplete(k, q.rows[k].uploadId, q.rows[k].token, Numbers(n)), now);
      reply.Claimed? && k in q'.rows && q'.rows[k].phase.Completing?
  {
    hide Sum, MarkExpired, NextExpiry, ValidToken, IsOneTo, ValidPartList;
    MarkedUnexpired(q, now, k);
  }

  predicate Live(w: World, k: Key) {
    k in w.bucket && k in w.q.rows && w.q.rows[k].phase.Active? && w.clock < w.q.rows[k].expiresAt
  }

  /** A live upload whose object already exists can be claimed once more. */
  lemma {:induction false} LiveIsClaimed(w: World, k: Key, pid: nat) returns (s: Step)
    requires Inv(w) && Grounded(w) && Live(w, k) && pid !in w.procs
    ensures s != LifecycleDeletes(k) && Claimed(Next(w, s), k)
  {
    hide Inv, Do, Full;
    UploadTheorems.PartsOfReached(w);
    KeyFacts(w, k);
    assert RowGrounded(w, k);
    var n := FullHasNumbers(w.q, k);
    ClaimSucceeds(w.q, k, w.clock, n);
    s := CompleteRequest(pid, k, w.q.rows[k].uploadId, w.q.rows[k].token, Numbers(n), true);
  }

  // ---------------------------------------------------------------------------
  // The exact condition

  /** Some later run, whoever acts in it, ends with the receipt of `k` and without its
      object, and not because R2's lifecycle rule deleted it. */
  ghost predicate CanLose(w: World, k: Key) {
    exists more :: NoLifecycle(more, k) && Orphan(RunFrom(w, more), k)
  }

  /** The upload is recorded and some task or lost delete threatens it, or it is not
      recorded yet and its row is neither being aborted nor expired before its claim. */
  ghost predicate Endangered(w: World, k: Key) {
    if k in w.q.ledger then Threatened(w, k) else k in w.q.rows && !Doomed(w.q.rows[k], w.clock)
  }

  lemma {:induction false} NoLifecycleAppend(a: seq<Step>, b: seq<Step>, k: Key)
    requires NoLifecycle(a, k) && NoLifecycle(b, k)
    ensures NoLifecycle(a + b, k)
  {}

  lemma {:induction false} ClaimedCanLose(w: World, k: Key)
    requires Inv(w) && Claimed(w, k)
    ensures CanLose(w, k)
  {
    hide Inv, Next, RunFrom, Orphan;
    var a := UnusedPid(w.procs);
    var ms: nat := if w.q.rows[k].expiresAt <= w.clock then 0 else w.q.rows[k].expiresAt - w.clock;
    TwoCleanupsLose(w, k, ms, a, a + 1);
    ActsOnly(a + 1, 3, k);
    NoLifecycleAppend([Act(a, true)], Acts(a + 1, 3), k);
    NoLifecycleAppend(TwoCleanups(k, ms, a, a + 1), [Act(a, true)] + Acts(a + 1, 3), k);
  }

  lemma {:induction false} LiveCanLose(w: World, k: Key)
    requires Inv(w) && Grounded(w) && Live(w, k)
    ensures CanLose(w, k)
  {
    hide Inv, Grounded, Next, RunFrom, Orphan;
    var pid := UnusedPid(w.procs);
    var s := LiveIsClaimed(w, k, pid);
    NextKeeps(w, s);
    ClaimedCanLose(Next(w, s), k);
    var more :| NoLifecycle(more, k) && Orphan(RunFrom(Next(w, s), more), k);
    RunFromFirst(w, s, more);
    NoLifecycleAppend([s], more, k);
  }

  lemma {:induction false} ThreatenedCanLose(w: World, k: Key)
    requires Inv(w) && Recorded(w, k) && Threatened(w, k)
    ensures CanLose(w, k)
  {
    hide Inv, Next, Threatens, Orphan, RunFrom;
    if ToDelete(k) in w.late {
      var s := LandLate(ToDelete(k));
      RunFromFirst(w, s, []);
      NothingLeft(Next(w, s));
      assert [s] + [] == [s];
      StepBucket(w, s, k);
      RemovingLeavesQuota(w, s, k);
      assert Orphan(Next(w, s), k) by { OrphanIs(Next(w, s), k); }
      assert NoLifecycle([s], k);
    } else {
      var pid :| pid in w.procs && Threatens(w.q, k, w.procs[pid]);
      ThreatLands(w, k, pid, w.procs[pid]);
      ActsOnly(pid, Distance(w.procs[pid]) + 1, k);
    }
  }

  lemma {:induction false} OrphanIs(w: World, k: Key)
    requires k in w.q.ledger && k !in w.bucket
    ensures Orphan(w, k)
  {}

  lemma {:induction false} SafeForEver(w: World, more: seq<Step>, k: Key)
    requires Inv(w) && Grounded(w) && k in w.bucket && !Endangered(w, k) && NoLifecycle(more, k)
    ensures !Orphan(RunFrom(w, more), k)
  {
    hide Inv, Grounded, RunFrom, Threatened, Doomed, NoLifecycle;
    KeyFacts(w, k);
    if k in w.q.ledger {
      UnthreatenedForEver(w, more, k);
    } else if k in w.q.rows {
      DoomedForEver(w, more, k);
    } else {
      OlderNeverRecorded(w, more, k);
    }
  }

  /** From any reachable state, for any object that is stored: without R2's lifecycle
      rule its receipt can end up without it if and only if the object is endangered. */
  lemma {:induction false} LossPossibleExactly(bucket: map<Key, Obj>, clock: int, steps: seq<Step>, k: Key)
    requires k in Reach(bucket, clock, steps).bucket
    ensures var w := Reach(bucket, clock, steps); CanLose(w, k) <==> Endangered(w, k)
  {
    hide Reach, Inv, Grounded, RunFrom, Orphan, Threatened, NoLifecycle;
    var w := Reach(bucket, clock, steps);
    ReachedGrounded(bucket, clock, steps);
    if Endangered(w, k) {
      if k in w.q.ledger {
        ThreatenedCanLose(w, k);
      } else if w.q.rows[k].phase.Active? {
        LiveCanLose(w, k);
      } else {
        ClaimedCanLose(w, k);
      }
    } else {
      forall more | NoLifecycle(more, k) ensures !Orphan(RunFrom(w, more), k) { SafeForEver(w, more, k); }
    }
  }
}
