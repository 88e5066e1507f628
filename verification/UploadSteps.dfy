/** What one step of the upload system does to the coordinator's tables, to the bucket
    and to the tasks, and what follows about rows and tasks in every reachable state. */
module UploadSteps {
  import opened Sums
  import opened QuotaModel
  import opened QuotaInvariants
  import opened QuotaProtocol
  import opened UploadWorld
  import opened UploadSafety
  import UploadTheorems

  // ---------------------------------------------------------------------------
  // What a step does to the coordinator and to the bucket

  /** The call a task makes at its next await. */
  function ActCall(p: Proc, heard: bool): Option<Call> {
    match p
    case PartFail(k, u, t) => if heard then Some(Call.ClaimAbort(k, u, t)) else None
    case ReleaseAborted(k, u, t) => if heard then Some(Call.Release(k, u, t)) else None
    case DeferAborted(k, u, t) => if heard then Some(Call.DeferAbort(k, u, t)) else None
    case Committing(k, u, t, o, size, _, _) => if heard then Some(Call.Commit(k, u, t, o, size)) else None
    case Restoring(k, u, t, o) => if heard then Some(Call.RestoreActive(k, u, t, o)) else None
    case DeferCompleted(k, u, t, o) => if heard then Some(Call.DeferCompletion(k, u, t, o)) else None
    case ReleaseDeleted(k, u, t, _) => if heard then Some(Call.Release(k, u, t)) else None
    case CleanPromote(k, r, size) => Some(Call.PromoteRecovered(k, r, size))
    case CleanPromoteAgain(k, r, size) => Some(Call.PromoteRecovered(k, r, size))
    case CleanFinish(k, r) => Some(Call.FinishCleanup(k, r))
    case CleanRetry(k, r) => Some(Call.RetryCleanup(k, r))
    case _ => None
  }

  /** The call that takes effect in the step. */
  ghost function CallOf(w: World, s: Step): Option<Call> {
    match s
    case ExpireRows => Some(Tick)
    case ReserveReturns(pid, asOf) =>
      if pid in w.procs && w.procs[pid].CreateWait? && w.procs[pid].key in w.creating && w.procs[pid].key in w.made
      then Some(GrantCall(w, w.procs[pid].key, asOf)) else None
    case ReserveLands(k, asOf) => if k in w.creating && k in w.made then Some(GrantCall(w, k, asOf)) else None
    case PartRequest(pid, k, u, t, n, size, heard) =>
      if pid !in w.procs && heard then Some(Call.ReservePart(k, u, t, n, size)) else None
    case CompleteRequest(pid, k, u, t, nums, heard) =>
      if pid !in w.procs && heard then Some(Call.ClaimComplete(k, u, t, nums)) else None
    case AbortRequest(pid, k, u, t, heard) => if pid !in w.procs && heard then Some(Call.ClaimAbort(k, u, t)) else None
    case Act(pid, heard) => if pid in w.procs then ActCall(w.procs[pid], heard) else None
    case LandLate(sent) => if sent in w.late && sent.ToQuota? then Some(sent.call) else None
    case ScanStarts(pid, scan) => if pid in w.procs then None else Some(Call.ScanBegin(scan))
    case ScanEnds(pid) => if pid in w.procs && ScanOver(w.procs[pid]) then Some(ApplyCall(w.procs[pid])) else None
    case ScanThrows(pid) =>
      if pid in w.procs && w.procs[pid].Scanning? then Some(Call.ScanFail(w.procs[pid].scan)) else None
    case _ => None
  }

  ghost function After(q: Quota, c: Option<Call>, now: int): Quota { if c.None? then q else Do(q, c.value, now).0 }

  lemma {:induction false} RefusedRecovery(q: Quota, k: Key, r: Row, size: nat, now: int)
    requires !Do(q, Call.PromoteRecovered(k, r, size), now).1.Accepted?
    ensures Do(q, Call.PromoteRecovered(k, r, size), now).0 == q
  {
    hide Promotable, Promote;
  }

  lemma {:induction false} MovesQuota()
    ensures forall w, pid, p :: At(w, pid, p).q == w.q
    ensures forall w, pid :: Ends(w, pid).q == w.q
    ensures forall w, s :: Lost(w, s).q == w.q
    ensures forall w, c :: CallQuota(w, c).q == Do(w.q, c, w.clock).0
    ensures forall w, k, u :: Abort(w, k, u).q == w.q
    ensures forall w, k :: Delete(w, k).q == w.q
    ensures forall w, k, u, n, size :: PutPart(w, k, u, n, size).q == w.q
    ensures forall w, k, u, nums :: Complete(w, k, u, nums).q == w.q
  {
    hide Do, Assembled;
  }

  lemma {:induction false} MovesBucket()
    ensures forall w, pid, p :: At(w, pid, p).bucket == w.bucket
    ensures forall w, pid :: Ends(w, pid).bucket == w.bucket
    ensures forall w, s :: Lost(w, s).bucket == w.bucket
    ensures forall w, c :: CallQuota(w, c).bucket == w.bucket
    ensures forall w, k, u :: Abort(w, k, u).bucket == w.bucket
    ensures forall w, k :: Delete(w, k).bucket == w.bucket - {k}
    ensures forall w, k, u, n, size :: PutPart(w, k, u, n, size).bucket == w.bucket
    ensures forall w: World, k, u, nums :: w.bucket.Keys <= Complete(w, k, u, nums).bucket.Keys
  {
    hide Do, Assembled;
  }

  lemma {:induction false} PromoteQuota(w: World, pid: nat, p: Proc, heard: bool)
    requires p.CleanPromote? || p.CleanPromoteAgain?
    ensures Advance(w, pid, p, heard).q == After(w.q, ActCall(p, heard), w.clock)
  {
    hide At, Ends, Lost, CallQuota, Abort, Delete, PutPart, Complete, Do, CanComplete, IsOpen;
    MovesQuota();
    var c := Call.PromoteRecovered(p.key, p.row, p.found);
    if !Answer(w, c).Accepted? { RefusedRecovery(w.q, p.key, p.row, p.found, w.clock); }
  }

  lemma {:induction false} CleanQuota(w: World, pid: nat, p: Proc, heard: bool)
    requires IsClean(p) && !p.CleanPromote? && !p.CleanPromoteAgain?
    ensures Advance(w, pid, p, heard).q == After(w.q, ActCall(p, heard), w.clock)
  {
    hide At, Ends, Lost, CallQuota, Abort, Delete, Do, Answer, IsOpen;
    MovesQuota();
  }

  lemma {:induction false} WorkerQuota(w: World, pid: nat, p: Proc, heard: bool)
    requires !IsClean(p)
    ensures Advance(w, pid, p, heard).q == After(w.q, ActCall(p, heard), w.clock)
  {
    hide At, Ends, Lost, CallQuota, Abort, Delete, PutPart, Complete, Do, Answer, Assembled, CanComplete, IsOpen;
    MovesQuota();
  }

  lemma {:induction false} ActQuota(w: World, pid: nat, p: Proc, heard: bool)
    ensures Advance(w, pid, p, heard).q == After(w.q, ActCall(p, heard), w.clock)
  {
    hide Advance, ActCall, After;
    if p.CleanPromote? || p.CleanPromoteAgain? {
      PromoteQuota(w, pid, p, heard);
    } else if IsClean(p) {
      CleanQuota(w, pid, p, heard);
    } else {
      WorkerQuota(w, pid, p, heard);
    }
  }

  lemma {:induction false} GrantQuota()
    ensures forall w: World, k, asOf | k in w.creating && k in w.made ::
      Grant(w, k, asOf).q == Do(w.q, GrantCall(w, k, asOf), w.clock).0 && Grant(w, k, asOf).bucket == w.bucket
  {
    hide Do;
  }

  lemma {:induction false} StepQuota(w: World, s: Step)
    ensures Next(w, s).q == After(w.q, CallOf(w, s), w.clock)
  {
    hide At, Ends, Lost, CallQuota, Abort, Delete, PutPart, Complete, Do, Advance, ActCall, ScanOver, IsPage;
    MovesQuota();
    GrantQuota();
    if s.Act? && s.pid in w.procs { ActQuota(w, s.pid, w.procs[s.pid], s.heard); }
  }

  predicate IsClean(p: Proc) {
    p.CleanHead? || p.CleanPromote? || p.CleanDelete? || p.CleanAbort? || p.CleanHeadAgain? || p.CleanPromoteAgain?
    || p.CleanFinish? || p.CleanRetry?
  }

  /** The task is about to delete the object of `k`. */
  predicate Deleting(p: Proc, k: Key) { (p.DeleteObject? || p.CleanDelete?) && p.key == k }

  /** The step deletes the object of `k`: a worker's or a cleanup's delete that is
      heard, a lost one that lands now, or R2's own lifecycle rule. */
  predicate Removes(w: World, s: Step, k: Key) {
    || s == LifecycleDeletes(k)
    || (s == LandLate(ToDelete(k)) && ToDelete(k) in w.late)
    || (s.Act? && s.heard && s.pid in w.procs && Deleting(w.procs[s.pid], k))
  }

  lemma {:induction false} CleanBucket(w: World, pid: nat, p: Proc, heard: bool, k: Key)
    requires k in w.bucket && IsClean(p)
    ensures k in Advance(w, pid, p, heard).bucket <==> !(heard && Deleting(p, k))
  {
    hide At, Ends, Lost, CallQuota, Abort, Delete, Answer, IsOpen;
    MovesBucket();
  }

  lemma {:induction false} WorkerBucket(w: World, pid: nat, p: Proc, heard: bool, k: Key)
    requires k in w.bucket && !IsClean(p)
    ensures k in Advance(w, pid, p, heard).bucket <==> !(heard && Deleting(p, k))
  {
    hide At, Ends, Lost, CallQuota, Abort, Delete, PutPart, Complete, Answer, Assembled, CanComplete, IsOpen;
    MovesBucket();
  }

  lemma {:induction false} ActBucket(w: World, pid: nat, p: Proc, heard: bool, k: Key)
    requires k in w.bucket
    ensures k in Advance(w, pid, p, heard).bucket <==> !(heard && Deleting(p, k))
  {
    hide Advance, Deleting;
    if IsClean(p) { CleanBucket(w, pid, p, heard, k); } else { WorkerBucket(w, pid, p, heard, k); }
  }

  lemma {:induction false} StepBucket(w: World, s: Step, k: Key)
    requires k in w.bucket
    ensures k in Next(w, s).bucket <==> !Removes(w, s, k)
  {
    hide At, Ends, Lost, CallQuota, Abort, Delete, PutPart, Complete, Answer, Advance, Grant, Deleting, ScanOver, IsPage;
    MovesBucket();
    GrantQuota();
    if s.Act? && s.pid in w.procs { ActBucket(w, s.pid, w.procs[s.pid], s.heard, k); }
  }

  /** The step writes the receipt of `k`: a commit or a recovery that is accepted while
      the row is still there. */
  ghost predicate Records(w: World, s: Step, k: Key) {
    var c := CallOf(w, s);
    && c.Some? && (c.value.Commit? || c.value.PromoteRecovered?) && c.value.key == k && k in w.q.rows
    && Do(w.q, c.value, w.clock).1.Accepted?
  }

  lemma {:induction false} CallLedger(q: Quota, c: Call, now: int, k: Key)
    requires PartsOk(q) && k !in q.ledger
    ensures k in Do(q, c, now).0.ledger <==>
      (c.Commit? || c.PromoteRecovered?) && c.key == k && k in q.rows && Do(q, c, now).1.Accepted?
  {
    hide Do, PartsOk, RowsLive, GlobalRoom, ActorRoom, Sum;
    DoEffect(q, c, now);
    if c.Commit? && c.key == k && Do(q, c, now).1.Accepted? { AcceptedCommitHas(q, k, c.uploadId, c.token, c.operation, c.size, now); }
    if c.Commit? || c.PromoteRecovered? { assert k in Do(q, c, now).0.ledger - {c.key} ==> k in q.ledger; }
  }

  lemma {:induction false} AcceptedCommitHas(q: Quota, k: Key, u: string, t: string, o: int, size: int, now: int)
    requires k !in q.ledger && Do(q, Call.Commit(k, u, t, o, size), now).1.Accepted?
    ensures Has(q, k, u)
  {
    hide Promotable, Promote;
  }

  lemma {:induction false} StepLedger(w: World, s: Step, k: Key)
    requires Inv(w) && k !in w.q.ledger
    ensures k in Next(w, s).q.ledger <==> Records(w, s, k)
  {
    hide Inv, Next, CallOf, Do;
    StepQuota(w, s);
    UploadTheorems.PartsOfReached(w);
    if CallOf(w, s).Some? { CallLedger(w.q, CallOf(w, s).value, w.clock, k); }
  }

  lemma {:induction false} RecordingLeavesBucket(w: World, s: Step)
    requires CallOf(w, s).Some?
    ensures Next(w, s).bucket == w.bucket
  {
    hide At, Ends, Lost, CallQuota, Abort, Delete, PutPart, Complete, Answer, Advance, ActCall, Grant, ScanOver, IsPage;
    MovesBucket();
    GrantQuota();
    if s.Act? { CallingLeavesBucket(w, s.pid, w.procs[s.pid], s.heard); }
  }

  lemma {:induction false} CallingLeavesBucket(w: World, pid: nat, p: Proc, heard: bool)
    requires ActCall(p, heard).Some?
    ensures Advance(w, pid, p, heard).bucket == w.bucket
  {
    hide At, Ends, Lost, CallQuota, Abort, Delete, PutPart, Complete, Answer, Assembled, CanComplete, IsOpen;
    MovesBucket();
  }

  lemma {:induction false} RemovingLeavesQuota(w: World, s: Step, k: Key)
    requires Removes(w, s, k)
    ensures Next(w, s).q == w.q
  {
    hide At, Delete, Do;
    MovesQuota();
  }

  lemma {:induction false} RecordsCalls(w: World, s: Step, k: Key)
    requires Records(w, s, k)
    ensures CallOf(w, s).Some? && k in w.q.rows
  {
    hide CallOf, Do;
  }

  lemma {:induction false} RowlessNotRecorded(w: World, s: Step, k: Key)
    requires k !in w.q.rows
    ensures !Records(w, s, k)
  {
    hide CallOf, Do;
  }

  /** What every reachable state says about one key. */
  lemma {:induction false} KeyFacts(w: World, k: Key)
    requires Inv(w)
    ensures k in w.born ==> k in w.start || k in w.granted
    ensures k in w.q.rows ==> k in w.granted && k !in w.start && k !in w.q.ledger
    ensures k in w.q.ledger ==> k in w.granted && k !in w.q.rows && k !in w.open && k !in w.start
    ensures k in w.bucket ==> k in w.born && (k in w.start || k in w.q.rows || k in w.q.ledger)
  {
    hide QInv, Budget, TasksOk, OpenOk;
  }

  // ---------------------------------------------------------------------------
  // What any step keeps about a key that once had a reservation

  predicate CallsReserve(c: Option<Call>, k: Key) { c.Some? && Reserves(c.value, k) }

  lemma {:induction false} NeverReservedAgain(w: World, s: Step, k: Key)
    requires Inv(w) && k in w.granted
    ensures !CallsReserve(CallOf(w, s), k)
  {
    hide QInv, Budget, StoreOk, OpenOk, CoveredIn, RowsMatch, LedgerMatches, ProcOk, ScanOver;
    if s.LandLate? && s.sent in w.late { assert SentOk(w, s.sent); }
  }

  /** What a call that does not reserve `k` may do to its row and its receipt. */
  ghost predicate RowMoves(q: Quota, q': Quota, k: Key) {
    && (k in q'.rows ==> k in q.rows && SameOwner(q.rows[k], q'.rows[k])
                         && PhaseStep(q.rows[k].phase, q'.rows[k].phase) && PartsGrow(q, q', k))
    && (k in q'.ledger && k !in q.ledger ==>
          k in q.rows && (q.rows[k].phase.Completing? || q.rows[k].phase.CompletionCleanup?))
    && (k in q.ledger && k in q'.ledger ==> q'.ledger[k] == q.ledger[k])
  }

  /** `RowAfterCall` for every step of the system. */
  lemma {:induction false} RowAfterStep(w: World, s: Step, k: Key)
    requires Inv(w) && k in w.granted
    ensures RowMoves(w.q, Next(w, s).q, k)
  {
    hide Inv, Next, CallOf, Do, SameOwner, PartsGrow;
    StepQuota(w, s);
    UploadTheorems.PartsOfReached(w);
    if CallOf(w, s).Some? {
      NeverReservedAgain(w, s, k);
      RowAfterCall(w.q, CallOf(w, s).value, w.clock, k);
    } else if k in w.q.rows {
      SamePartsGrow(w.q, w.q, k);
      SameOwnerItself(w.q.rows[k]);
    }
  }

  lemma {:induction false} SameOwnerItself(r: Row)
    ensures SameOwner(r, r)
  {}

  lemma {:induction false} GrantedStays(w: World, s: Step, k: Key)
    requires k in w.granted
    ensures k in Next(w, s).granted
  {
    hide Next, Advance;
    if s.Act? {
      if s.pid in w.procs {
        ActAdvances(w, s.pid, w.procs[s.pid], s.heard);
        UploadTheorems.AdvanceFixed(w, s.pid, w.procs[s.pid], s.heard);
      } else {
        IdleAct(w, s.pid);
      }
    } else {
      RequestsGrant(w, s, k);
    }
  }

  lemma {:induction false} RequestsGrant(w: World, s: Step, k: Key)
    requires !s.Act? && k in w.granted
    ensures k in Next(w, s).granted
  {
    hide At, Ends, Lost, CallQuota, Abort, Delete, PutPart, Complete, Do, Answer, Advance, Land, ScanOver, IsPage;
    UploadTheorems.MovesKeepFixed();
    if s.LandLate? { UploadTheorems.LandFixed(w, s.sent); }
  }

  ghost predicate FullRow(q: Quota, k: Key) { k in q.rows && Full(q, k) }

  /** A new object is made from a row whose parts are complete. */
  lemma {:induction false} BornFull(w: World, s: Step, k: Key)
    requires Inv(w) && k in Next(w, s).born && k !in w.born
    ensures Next(w, s).q == w.q && FullRow(w.q, k)
  {
    hide At, Ends, Lost, CallQuota, Abort, Delete, PutPart, Complete, Do, Answer, Advance, Grant, ScanOver, IsPage,
         Shared, Budget, ProcOk, SentOk, FullRow;
    MovesBorn();
    MovesQuota();
    if s.Act? && s.pid in w.procs {
      var p := w.procs[s.pid];
      OtherActsBear(w, s.pid, p, s.heard);
      CompletionBears(w, s.pid, p, s.heard, k);
      assert PartsClaimed(w, k, p.uploadId, p.numbers) by { TaskClaim(w, p); }
      CompletedRow(w, k, p.uploadId, p.numbers);
    }
    if s.LandLate? && s.sent in w.late && s.sent.ToComplete? {
      LateKnown(w, s.sent);
      OnlyThatKeyIf(w, s.sent.key, s.sent.uploadId, s.sent.numbers, k);
      CompletedRow(w, k, s.sent.uploadId, s.sent.numbers) by { LateClaim(w, s.sent); }
    }
  }

  lemma {:induction false} TaskClaim(w: World, p: Proc)
    requires p.CompleteUpload? && ProcOk(w, p)
    ensures PartsClaimed(w, p.key, p.uploadId, p.numbers)
  {}

  lemma {:induction false} LateClaim(w: World, s: Sent)
    requires s.ToComplete? && SentOk(w, s)
    ensures PartsClaimed(w, s.key, s.uploadId, s.numbers)
  {}

  lemma {:induction false} MovesBorn()
    ensures forall w, pid, p :: At(w, pid, p).born == w.born
    ensures forall w, pid :: Ends(w, pid).born == w.born
    ensures forall w, s :: Lost(w, s).born == w.born
    ensures forall w, c :: CallQuota(w, c).born == w.born
    ensures forall w, k, u :: Abort(w, k, u).born == w.born
    ensures forall w, k :: Delete(w, k).born == w.born
    ensures forall w, k, u, n, size :: PutPart(w, k, u, n, size).born == w.born
    ensures forall w: World, k, asOf | k in w.creating && k in w.made :: Grant(w, k, asOf).born == w.born
  {
    hide Do;
  }

  lemma {:induction false} OtherActsBear(w: World, pid: nat, p: Proc, heard: bool)
    ensures !p.CompleteUpload? ==> Advance(w, pid, p, heard).born == w.born
  {
    hide Advance;
    if IsClean(p) { CleanBearsNothing(w, pid, p, heard); } else { WorkerBearsNothing(w, pid, p, heard); }
  }

  lemma {:induction false} CleanBearsNothing(w: World, pid: nat, p: Proc, heard: bool)
    requires IsClean(p)
    ensures Advance(w, pid, p, heard).born == w.born
  {
    hide At, Ends, Lost, CallQuota, Abort, Delete, Answer, IsOpen;
    MovesBorn();
  }

  lemma {:induction false} WorkerBearsNothing(w: World, pid: nat, p: Proc, heard: bool)
    requires !IsClean(p)
    ensures !p.CompleteUpload? ==> Advance(w, pid, p, heard).born == w.born
  {
    hide At, Ends, Lost, CallQuota, Abort, Delete, PutPart, Complete, Answer, Assembled, CanComplete, IsOpen;
    MovesBorn();
  }

  predicate Completes(w: World, p: Proc, k: Key) {
    p.CompleteUpload? && p.key == k && CanComplete(w, k, p.uploadId, p.numbers)
  }

  lemma {:induction false} CompletionBears(w: World, pid: nat, p: Proc, heard: bool, k: Key)
    requires k !in w.born && p.CompleteUpload?
    ensures k in Advance(w, pid, p, heard).born ==> Completes(w, p, k) && Advance(w, pid, p, heard).q == w.q
  {
    hide At, Lost, Complete, Assembled, CanComplete;
    MovesBorn();
    MovesQuota();
    OnlyThatKeyIf(w, p.key, p.uploadId, p.numbers, k);
  }

  lemma {:induction false} OnlyThatKeyIf(w: World, k: Key, u: string, nums: seq<int>, j: Key)
    ensures j in Complete(w, k, u, nums).born && j !in w.born ==> j == k && CanComplete(w, k, u, nums)
  {
    hide Assembled, CanComplete;
  }

  lemma {:induction false} CompletedRow(w: World, k: Key, u: string, nums: seq<int>)
    requires Shared(w) && PartsClaimed(w, k, u, nums) && CanComplete(w, k, u, nums)
    ensures FullRow(w.q, k)
  {
    hide QInv, CanComplete, Full;
    AssembledSize(w, k, u, nums);
  }

  // ---------------------------------------------------------------------------
  // Tasks, step by step

  predicate OfClean(p: Proc, k: Key, r: Row) { IsClean(p) && p.key == k && p.row == r }

  /** Where a task may have stood one await earlier. */
  ghost predicate Follows(w: World, p: Proc, p': Proc) {
    match p'
    case CleanHead(_, _) => false
    case CleanPromote(k, r, _) => p == CleanHead(k, r)
    case CleanAbort(k, r) => p == CleanHead(k, r)
    case CleanHeadAgain(k, r) => p == CleanAbort(k, r)
    case CleanPromoteAgain(k, r, _) => p == CleanHeadAgain(k, r)
    case CleanDelete(k, r) => OfClean(p, k, r) && (p.CleanPromote? || (p.CleanPromoteAgain? && r.phase.AbortPending?))
    case CleanFinish(k, r) => OfClean(p, k, r)
    case CleanRetry(k, r) => OfClean(p, k, r)
    case DeleteObject(k, u, t, o) =>
      || (p.CompleteUpload? && p.key == k && CanComplete(w, k, p.uploadId, p.numbers))
      || (p.Committing? && p == Committing(k, u, t, o, p.size, false, p.again) && !Answer(w, Call.Commit(k, u, t, o, p.size)).Accepted?)
    case Committing(k, _, _, _, _, viaHead, _) =>
      || viaHead
      || (p.CompleteUpload? && p.key == k && CanComplete(w, k, p.uploadId, p.numbers))
      || p == p'.(again := false)
    case Scanning(_, _, _, _, _, _) => false
    case _ => true
  }

  predicate IsAt(w: World, pid: nat, p: Proc) { pid in w.procs && w.procs[pid] == p }

  /** Only the task `pid` has moved, if at all to where it may stand next. */
  ghost predicate TaskMoved(w: World, v: World, pid: nat, p: Proc) {
    && (pid in v.procs ==> v.procs[pid] == p || Follows(w, p, v.procs[pid]))
    && (forall i :: i != pid && i in v.procs ==> i in w.procs && v.procs[i] == w.procs[i])
  }

  lemma {:induction false} ActFollows(w: World, pid: nat, p: Proc, heard: bool)
    requires IsAt(w, pid, p)
    ensures TaskMoved(w, Advance(w, pid, p, heard), pid, p)
  {
    hide Advance, TaskMoved;
    if p.CleanHead? || p.CleanPromote? {
      CleanFollows(w, pid, p, heard);
    } else if p.CleanDelete? || p.CleanAbort? {
      CleanCallFollows(w, pid, p, heard);
    } else if IsClean(p) {
      CleanEndFollows(w, pid, p, heard);
    } else if p.Committing? {
      CommittingFollows(w, pid, p, heard);
    } else if p.CompleteUpload? {
      CompletionFollows(w, pid, p, heard);
    } else {
      OtherFollows(w, pid, p, heard);
    }
  }

  lemma {:induction false} CleanFollows(w: World, pid: nat, p: Proc, heard: bool)
    requires IsAt(w, pid, p) && (p.CleanHead? || p.CleanPromote?)
    ensures TaskMoved(w, Advance(w, pid, p, heard), pid, p)
  {
    hide CallQuota, Abort, Delete, Answer, CanComplete, IsOpen, TaskMoved;
    MovesProcs();
    var v := Advance(w, pid, p, heard);
    assert pid in v.procs ==> v.procs[pid] == p || Follows(w, p, v.procs[pid]);
    assert v.procs - {pid} == w.procs - {pid};
    OthersStill(w, v, pid, p);
  }

  lemma {:induction false} CleanCallFollows(w: World, pid: nat, p: Proc, heard: bool)
    requires IsAt(w, pid, p) && (p.CleanDelete? || p.CleanAbort?)
    ensures TaskMoved(w, Advance(w, pid, p, heard), pid, p)
  {
    hide CallQuota, Abort, Delete, Answer, CanComplete, IsOpen, TaskMoved;
    MovesProcs();
    var v := Advance(w, pid, p, heard);
    assert pid in v.procs ==> v.procs[pid] == p || Follows(w, p, v.procs[pid]);
    assert v.procs - {pid} == w.procs - {pid};
    OthersStill(w, v, pid, p);
  }

  lemma {:induction false} CleanEndFollows(w: World, pid: nat, p: Proc, heard: bool)
    requires IsAt(w, pid, p) && (p.CleanHeadAgain? || p.CleanPromoteAgain? || p.CleanFinish? || p.CleanRetry?)
    ensures TaskMoved(w, Advance(w, pid, p, heard), pid, p)
  {
    hide CallQuota, Abort, Delete, Answer, CanComplete, IsOpen, TaskMoved;
    MovesProcs();
    var v := Advance(w, pid, p, heard);
    assert pid in v.procs ==> v.procs[pid] == p || Follows(w, p, v.procs[pid]);
    assert v.procs - {pid} == w.procs - {pid};
    OthersStill(w, v, pid, p);
  }

  lemma {:induction false} OthersStill(w: World, v: World, pid: nat, p: Proc)
    requires v.procs - {pid} == w.procs - {pid} && (pid in v.procs ==> v.procs[pid] == p || Follows(w, p, v.procs[pid]))
    ensures TaskMoved(w, v, pid, p)
  {
    hide Follows;
    forall i | i != pid && i in v.procs ensures i in w.procs && v.procs[i] == w.procs[i] {
      assert i in v.procs - {pid} && (v.procs - {pid})[i] == v.procs[i];
    }
  }

  lemma {:induction false} CommittingAct(w: World, pid: nat, p: Proc, heard: bool)
    requires p.Committing?
    ensures var c := Call.Commit(p.key, p.uploadId, p.token, p.op, p.size);
      Advance(w, pid, p, heard) ==
        if !heard then
          (if p.again then Ends(Lost(w, ToQuota(c)), pid) else At(Lost(w, ToQuota(c)), pid, p.(again := true)))
        else
          At(CallQuota(w, c), pid,
             if Answer(w, c).Accepted? then NoContent(p.key, p.uploadId, p.token, p.op, p.size)
             else if p.viaHead then DeferCompleted(p.key, p.uploadId, p.token, p.op)
             else DeleteObject(p.key, p.uploadId, p.token, p.op))
  {
    hide At, Ends, Lost, CallQuota, Answer;
  }

  lemma {:induction false} CommittingNext(w: World, p: Proc)
    requires p.Committing?
    ensures !p.again ==> Follows(w, p, p.(again := true))
    ensures Follows(w, p, NoContent(p.key, p.uploadId, p.token, p.op, p.size))
    ensures Follows(w, p, DeferCompleted(p.key, p.uploadId, p.token, p.op))
    ensures !p.viaHead && !Answer(w, Call.Commit(p.key, p.uploadId, p.token, p.op, p.size)).Accepted? ==>
      Follows(w, p, DeleteObject(p.key, p.uploadId, p.token, p.op))
  {
    hide Answer;
  }

  lemma {:induction false} CommittingFollows(w: World, pid: nat, p: Proc, heard: bool)
    requires IsAt(w, pid, p) && p.Committing?
    ensures TaskMoved(w, Advance(w, pid, p, heard), pid, p)
  {
    hide Advance, CallQuota, Answer, Follows;
    MovesProcs();
    CommittingAct(w, pid, p, heard);
    CommittingNext(w, p);
  }

  lemma {:induction false} CompletionFollows(w: World, pid: nat, p: Proc, heard: bool)
    requires IsAt(w, pid, p) && p.CompleteUpload?
    ensures TaskMoved(w, Advance(w, pid, p, heard), pid, p)
  {
    hide CallQuota, Abort, Delete, PutPart, Complete, Answer, Assembled, CanComplete, IsOpen;
    MovesProcs();
  }

  lemma {:induction false} OtherFollows(w: World, pid: nat, p: Proc, heard: bool)
    requires IsAt(w, pid, p) && !IsClean(p) && !p.Committing? && !p.CompleteUpload?
    ensures TaskMoved(w, Advance(w, pid, p, heard), pid, p)
  {
    hide CallQuota, Abort, Delete, PutPart, Complete, Answer, Assembled, CanComplete, IsOpen, TaskMoved;
    MovesProcs();
    var v := Advance(w, pid, p, heard);
    assert pid in v.procs ==> v.procs[pid] == p || Follows(w, p, v.procs[pid]);
    assert v.procs - {pid} == w.procs - {pid};
    OthersStill(w, v, pid, p);
  }

  lemma {:induction false} MovesProcs()
    ensures forall w, c :: CallQuota(w, c).procs == w.procs
    ensures forall w, k, u :: Abort(w, k, u).procs == w.procs
    ensures forall w, k :: Delete(w, k).procs == w.procs
    ensures forall w, k, u, n, size :: PutPart(w, k, u, n, size).procs == w.procs
    ensures forall w, k, u, nums :: Complete(w, k, u, nums).procs == w.procs
    ensures forall w: World, k, asOf | k in w.creating && k in w.made :: Grant(w, k, asOf).procs == w.procs
  {
    hide Do, Assembled;
  }

  /** The tasks that never delete anything by themselves. */
  predicate Plain(p: Proc) { !IsClean(p) && !p.DeleteObject? && !p.Committing? }

  predicate Begun(w: World, s: Step, pid: nat, p: Proc) {
    && s.CleanupStarts? && s.pid == pid && s.key in w.q.rows && InCleanup(w.q.rows[s.key].phase)
    && p == (if w.q.rows[s.key].phase.CompletionCleanup? then CleanHead(s.key, w.q.rows[s.key]) else CleanAbort(s.key, w.q.rows[s.key]))
  }

  /** The task took an await in the step. */
  ghost predicate Took(w: World, s: Step, pid: nat, p: Proc) {
    s.Act? && pid in w.procs && Follows(w, w.procs[pid], p)
  }

  lemma {:induction false} PlacedTask(m: World, at: nat, x: Proc, pid: nat, p: Proc)
    ensures IsAt(At(m, at, x), pid, p) ==> IsAt(m, pid, p) || p == x
  {}

  lemma {:induction false} UnplacedTask(w: World, pid: nat, p: Proc)
    ensures forall c :: IsAt(CallQuota(w, c), pid, p) <==> IsAt(w, pid, p)
    ensures forall x :: IsAt(Lost(w, x), pid, p) <==> IsAt(w, pid, p)
  {
    MovesProcs();
  }

  lemma {:induction false} RequestTask(w: World, s: Step, pid: nat, p: Proc)
    requires (s.PartRequest? || s.CompleteRequest? || s.AbortRequest?) && IsAt(Next(w, s), pid, p)
    ensures IsAt(w, pid, p) || (Plain(p) && !p.Scanning?)
  {
    hide At, Lost, CallQuota, Answer, IsAt;
    UnplacedTask(w, pid, p);
    if s.PartRequest? {
      var c := Call.ReservePart(s.key, s.uploadId, s.token, s.number, s.size);
      PlacedTask(CallQuota(w, c), s.pid, PartUpload(s.key, s.uploadId, s.token, s.number, s.size), pid, p);
    } else if s.AbortRequest? {
      var c := Call.ClaimAbort(s.key, s.uploadId, s.token);
      PlacedTask(CallQuota(w, c), s.pid, AbortUpload(s.key, s.uploadId, s.token), pid, p);
    } else {
      var c := Call.ClaimComplete(s.key, s.uploadId, s.token, s.numbers);
      var reply := Answer(w, c);
      if reply.Claimed? {
        var x := CompleteUpload(s.key, s.uploadId, s.token, reply.operation, reply.bytes, s.numbers);
        PlacedTask(CallQuota(w, c), s.pid, x, pid, p);
      }
    }
  }

  lemma {:induction false} OtherTask(w: World, s: Step, pid: nat, p: Proc)
    requires !s.Act? && !s.PartRequest? && !s.CompleteRequest? && !s.AbortRequest? && IsAt(Next(w, s), pid, p)
    ensures IsAt(w, pid, p) || Plain(p) || Begun(w, s, pid, p)
  {
    hide CallQuota, Abort, Delete, PutPart, Complete, Answer, Grant, ScanOver, IsPage;
    MovesProcs();
  }

  /** Where the tasks of the next state come from. */
  lemma {:induction false} StepTask(w: World, s: Step, pid: nat, p: Proc)
    requires IsAt(Next(w, s), pid, p)
    ensures IsAt(w, pid, p) || Took(w, s, pid, p) || Plain(p) || Begun(w, s, pid, p)
  {
    if s.Act? {
      hide Advance, Follows;
      if s.pid in w.procs { ActFollows(w, s.pid, w.procs[s.pid], s.heard); }
    } else {
      hide Next, Took, Plain, Begun;
      if s.PartRequest? || s.CompleteRequest? || s.AbortRequest? {
        RequestTask(w, s, pid, p);
      } else {
        OtherTask(w, s, pid, p);
      }
    }
  }

  /** The lost delete is of the object the acting task was about to delete. */
  predicate LostDelete(w: World, s: Step, k: Key) { s.Act? && s.pid in w.procs && Deleting(w.procs[s.pid], k) }

  predicate IsRetry(x: Sent) { x.ToQuota? && x.call.RetryCleanup? }

  /** A lost delete was some task's delete; no cleanup retry is ever on its way. */
  lemma {:induction false} StepLate(w: World, s: Step, x: Sent)
    requires x in Next(w, s).late && x !in w.late
    ensures forall k :: x == ToDelete(k) ==> LostDelete(w, s, k)
    ensures !IsRetry(x)
  {
    hide Next, Advance, LostDelete, IsRetry;
    if s.Act? {
      if s.pid in w.procs {
        ActAdvances(w, s.pid, w.procs[s.pid], s.heard);
        ActLate(w, s.pid, w.procs[s.pid], s.heard, x);
        LostDeleteActs(w, s);
      } else {
        IdleAct(w, s.pid);
      }
    } else {
      RequestLate(w, s, x);
    }
  }

  lemma {:induction false} LostDeleteActs(w: World, s: Step)
    requires s.Act? && s.pid in w.procs
    ensures forall k :: Deleting(w.procs[s.pid], k) ==> LostDelete(w, s, k)
  {
    hide Deleting;
  }

  /** Only requests lose anything outside the tasks' awaits. */
  lemma {:induction false} RequestLate(w: World, s: Step, x: Sent)
    requires !s.Act? && x in Next(w, s).late && x !in w.late
    ensures forall k :: x != ToDelete(k)
    ensures !IsRetry(x)
  {
    hide At, Ends, CallQuota, Abort, Delete, PutPart, Complete, Answer, Advance, Grant, ScanOver, IsPage;
    MovesLate();
  }

  lemma {:induction false} IdleAct(w: World, pid: nat)
    requires pid !in w.procs
    ensures forall heard :: Next(w, Act(pid, heard)) == w
  {
    hide Advance;
  }

  lemma {:induction false} MovesLate()
    ensures forall w, pid, p :: At(w, pid, p).late == w.late
    ensures forall w, pid :: Ends(w, pid).late == w.late
    ensures forall w, c :: CallQuota(w, c).late == w.late
    ensures forall w, k, u :: Abort(w, k, u).late == w.late
    ensures forall w, k :: Delete(w, k).late == w.late
    ensures forall w, k, u, n, size :: PutPart(w, k, u, n, size).late == w.late
    ensures forall w, k, u, nums :: Complete(w, k, u, nums).late == w.late
    ensures forall w: World, k, asOf | k in w.creating && k in w.made :: Grant(w, k, asOf).late == w.late
  {
    hide Do, Assembled;
  }

  lemma {:induction false} CleanLate(w: World, pid: nat, p: Proc, heard: bool, x: Sent)
    requires IsClean(p) && x in Advance(w, pid, p, heard).late && x !in w.late
    ensures forall k :: x == ToDelete(k) ==> Deleting(p, k)
    ensures !IsRetry(x)
  {
    hide At, Ends, CallQuota, Abort, Delete, Answer, IsOpen;
    MovesLate();
  }

  lemma {:induction false} WorkerLate(w: World, pid: nat, p: Proc, heard: bool, x: Sent)
    requires !IsClean(p) && x in Advance(w, pid, p, heard).late && x !in w.late
    ensures forall k :: x == ToDelete(k) ==> Deleting(p, k)
    ensures !IsRetry(x)
  {
    hide At, Ends, CallQuota, Abort, Delete, PutPart, Complete, Answer, Assembled, CanComplete, IsOpen;
    MovesLate();
  }

  lemma {:induction false} ActLate(w: World, pid: nat, p: Proc, heard: bool, x: Sent)
    requires x in Advance(w, pid, p, heard).late && x !in w.late
    ensures forall k :: x == ToDelete(k) ==> Deleting(p, k)
    ensures !IsRetry(x)
  {
    hide Advance, Deleting, IsRetry;
    if IsClean(p) { CleanLate(w, pid, p, heard, x); } else { WorkerLate(w, pid, p, heard, x); }
  }

  // ---------------------------------------------------------------------------
  // What the history of rows and tasks says about them

  /** A row's token is well formed, and once the object exists its parts are complete. */
  ghost predicate RowGrounded(w: World, k: Key) {
    k in w.q.rows ==> ValidToken(w.q.rows[k].token) && (k in w.born ==> Full(w.q, k))
  }

  /** An upload being given up, which no receipt will ever be written for. */
  ghost predicate Aborting(w: World, k: Key) {
    && k in w.granted && k !in w.q.ledger
    && (k in w.q.rows ==> w.q.rows[k].phase.AbortPending?)
  }

  ghost predicate TaskGrounded(w: World, p: Proc) {
    IsClean(p) ==>
      && InCleanup(p.row.phase)
      && (p.CleanHead? ==> p.row.phase.CompletionCleanup?)
      && ((p.CleanAbort? || p.CleanHeadAgain? || p.CleanPromoteAgain?) && p.row.phase.AbortPending? ==> Aborting(w, p.key))
  }

  ghost predicate Grounded(w: World) {
    && (forall k :: RowGrounded(w, k))
    && (forall pid :: pid in w.procs ==> TaskGrounded(w, w.procs[pid]))
    && (forall x :: x in w.late ==> !IsRetry(x))
  }

  lemma {:induction false} AbortingStays(w: World, s: Step, k: Key)
    requires Inv(w) && Aborting(w, k)
    ensures Aborting(Next(w, s), k)
  {
    hide Inv, Next, SameOwner, PartsGrow;
    GrantedStays(w, s, k);
    RowAfterStep(w, s, k);
  }

  predicate TokenOk(q: Quota, k: Key) { k in q.rows ==> ValidToken(q.rows[k].token) }

  lemma {:induction false} ReservedToken(q: Quota, k: Key, u: string, t: string, a: string, size: int, asOf: int, now: int)
    requires k !in q.rows
    ensures TokenOk(Do(q, Call.Reserve(k, u, t, a, size, asOf), now).0, k)
  {
    hide GlobalRoom, ActorRoom, Unsettled, Sum, ValidToken;
  }

  /** A row a step creates has a well-formed token and no object. */
  lemma {:induction false} NewRowGrounded(w: World, s: Step, k: Key)
    requires Inv(w) && k !in w.q.rows
    ensures RowGrounded(Next(w, s), k)
  {
    hide Inv, Next, CallOf, Do, ValidToken, Full, FullRow, PartsGrow, SameOwner;
    StepQuota(w, s);
    UploadTheorems.PartsOfReached(w);
    if CallOf(w, s).Some? {
      var c := CallOf(w, s).value;
      if !Reserves(c, k) { RowAfterCall(w.q, c, w.clock, k); }
      else { ReservedToken(w.q, k, c.uploadId, c.token, c.actor, c.size, c.asOf, w.clock); }
    }
    if k in Next(w, s).born {
      NextKeeps(w, s);
      UploadTheorems.StartStays(w, s);
      KeyFacts(w, k);
      KeyFacts(Next(w, s), k);
      if k !in w.born { NotBornRowless(w, s, k); }
      if k in w.granted { RowAfterStep(w, s, k); }
    }
  }

  lemma {:induction false} NotBornRowless(w: World, s: Step, k: Key)
    requires Inv(w) && k !in w.q.rows && k !in w.born
    ensures k !in Next(w, s).born
  {
    hide Inv, Next, Full;
    if k in Next(w, s).born { BornFull(w, s, k); }
  }

  lemma {:induction false} OldRowGrounded(w: World, s: Step, k: Key)
    requires Inv(w) && k in w.q.rows && RowGrounded(w, k)
    ensures RowGrounded(Next(w, s), k)
  {
    hide Inv, Next, CallOf, Do, ValidToken, Full, PartsGrow;
    KeyFacts(w, k);
    RowAfterStep(w, s, k);
    if k in Next(w, s).born && k in Next(w, s).q.rows {
      if k !in w.born { BornFull(w, s, k); }
      FullStays(w.q, Next(w, s).q, k);
    }
  }

  lemma {:induction false} TaskStaysGrounded(w: World, s: Step, p: Proc)
    requires Inv(w) && TaskGrounded(w, p)
    ensures TaskGrounded(Next(w, s), p)
  {
    hide Inv, Next, Aborting;
    if IsClean(p) && Aborting(w, p.key) { AbortingStays(w, s, p.key); }
  }

  lemma {:induction false} FollowerGrounded(w: World, p: Proc, p': Proc)
    requires TaskGrounded(w, p) && Follows(w, p, p')
    ensures TaskGrounded(w, p')
  {
    hide Aborting, CanComplete, Answer;
  }

  lemma {:induction false} TasksGrounded(w: World, s: Step, pid: nat, p: Proc)
    requires Inv(w) && Grounded(w) && IsAt(Next(w, s), pid, p)
    ensures TaskGrounded(Next(w, s), p)
  {
    hide Inv, Next, Follows, Aborting, RowGrounded;
    StepTask(w, s, pid, p);
    if Took(w, s, pid, p) { FollowerGrounded(w, w.procs[pid], p); }
    if Begun(w, s, pid, p) {
      KeyFacts(w, s.key);
      AbortingRow(w, s.key);
    }
    TaskStaysGrounded(w, s, p);
  }

  lemma {:induction false} AbortingRow(w: World, k: Key)
    requires k in w.granted && k !in w.q.ledger
    ensures Aborting(w, k) || (k in w.q.rows && !w.q.rows[k].phase.AbortPending?)
  {}

  lemma {:induction false} GroundedStays(w: World, s: Step)
    requires Inv(w) && Grounded(w)
    ensures Grounded(Next(w, s))
  {
    hide Inv, Next, RowGrounded, TaskGrounded, IsRetry;
    forall k ensures RowGrounded(Next(w, s), k) {
      if k in w.q.rows { OldRowGrounded(w, s, k); } else { NewRowGrounded(w, s, k); }
    }
    forall pid | pid in Next(w, s).procs ensures TaskGrounded(Next(w, s), Next(w, s).procs[pid]) {
      TasksGrounded(w, s, pid, Next(w, s).procs[pid]);
    }
    forall x | x in Next(w, s).late ensures !IsRetry(x) {
      if x !in w.late { StepLate(w, s, x); }
    }
  }

  lemma {:induction false} RunGrounded(w: World, steps: seq<Step>)
    requires Inv(w) && Grounded(w)
    ensures Inv(RunFrom(w, steps)) && Grounded(RunFrom(w, steps))
    decreases |steps|
  {
    hide Inv, Next, Grounded;
    if steps != [] {
      NextKeeps(w, steps[0]);
      GroundedStays(w, steps[0]);
      RunGrounded(Next(w, steps[0]), steps[1..]);
    }
  }

  lemma {:induction false} ReachedGrounded(bucket: map<Key, Obj>, clock: int, steps: seq<Step>)
    ensures Inv(Reach(bucket, clock, steps)) && Grounded(Reach(bucket, clock, steps))
  {
    hide Inv;
    InitialOk(bucket, clock);
    RunGrounded(Initial(bucket, clock), steps);
  }

  // ---------------------------------------------------------------------------
  // Runs, step by step

  lemma {:induction false} RunFromFirst(w: World, s: Step, steps: seq<Step>)
    ensures RunFrom(w, [s] + steps) == RunFrom(Next(w, s), steps)
  {
    hide Next;
    assert ([s] + steps)[1..] == steps;
  }

  lemma {:induction false} NothingLeft(w: World)
    ensures RunFrom(w, []) == w
  {}

  lemma {:induction false} RunFromAppend(w: World, a: seq<Step>, b: seq<Step>)
    ensures RunFrom(w, a + b) == RunFrom(RunFrom(w, a), b)
    decreases |a|
  {
    hide Next;
    if a == [] {
      assert a + b == b;
    } else {
      assert (a + b)[0] == a[0] && (a + b)[1..] == a[1..] + b;
      RunFromAppend(Next(w, a[0]), a[1..], b);
    }
  }

  lemma {:induction false} FiveSteps(w: World, a: Step, b: Step, c: Step, d: Step, e: Step)
    ensures RunFrom(w, [a, b, c, d, e]) == Next(Next(Next(Next(Next(w, a), b), c), d), e)
  {
    hide Next;
    var v := Next(Next(w, a), b);
    assert [a, b, c, d, e][1..][1..] == [c, d, e] && [a, b, c, d, e][1..][0] == b;
    assert RunFrom(w, [a, b, c, d, e]) == RunFrom(v, [c, d, e]);
    assert [c, d, e][1..] == [d, e] && [d, e][1..] == [e] && [e][1..] == [];
    var x := Next(Next(v, c), d);
    assert RunFrom(v, [c, d, e]) == RunFrom(x, [e]);
    assert RunFrom(x, [e]) == Next(x, e);
  }

  lemma {:induction false} ActAdvances(w: World, pid: nat, p: Proc, heard: bool)
    requires IsAt(w, pid, p)
    ensures Next(w, Act(pid, heard)) == Advance(w, pid, p, heard)
  {
    hide Advance;
  }

  lemma {:induction false} ClockForward(w: World, s: Step)
    ensures Next(w, s).clock >= w.clock
  {
    hide Next, Advance;
    if s.Act? {
      if s.pid in w.procs {
        ActAdvances(w, s.pid, w.procs[s.pid], s.heard);
        UploadTheorems.AdvanceFixed(w, s.pid, w.procs[s.pid], s.heard);
      } else {
        IdleAct(w, s.pid);
      }
    } else {
      RequestsClock(w, s);
    }
  }

  lemma {:induction false} RequestsClock(w: World, s: Step)
    requires !s.Act?
    ensures Next(w, s).clock >= w.clock
  {
    hide At, Ends, Lost, CallQuota, Abort, Delete, PutPart, Complete, Do, Answer, Advance, Land, ScanOver, IsPage;
    UploadTheorems.MovesKeepFixed();
    if s.LandLate? { UploadTheorems.LandFixed(w, s.sent); }
  }

  /** A task's next `n` awaits, all heard. */
  function Acts(pid: nat, n: nat): seq<Step> { if n == 0 then [] else [Act(pid, true)] + Acts(pid, n - 1) }

  lemma {:induction false} CompletionAct(w: World, pid: nat, p: Proc)
    requires p.CompleteUpload? && CanComplete(w, p.key, p.uploadId, p.numbers)
    ensures p.key in w.open
    ensures Assembled(w.open[p.key], p.numbers).size == p.bytes ==>
      Advance(w, pid, p, true) ==
        At(Complete(w, p.key, p.uploadId, p.numbers), pid, Committing(p.key, p.uploadId, p.token, p.op, p.bytes, false, false))
  {
    hide At, Complete, Assembled;
  }
}
