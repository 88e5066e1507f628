/** What an applied bucket scan does to the receipts: the two-week rule by which the
    record of an upload ends once its object is gone. */
module UploadReceipts {
  import opened Sums
  import opened QuotaModel
  import opened QuotaInvariants
  import opened UploadWorld
  import opened UploadSafety
  import opened UploadSteps
  import UploadTheorems

  // ---------------------------------------------------------------------------
  // Every receipt may be dropped two weeks after its completion

  predicate Dated(q: Quota) {
    forall k :: k in q.ledger ==> q.ledger[k].verifyAfter == q.ledger[k].completedAt + 1_209_600_000
  }

  lemma {:induction false} DatedAfterCall(q: Quota, c: Call, now: int)
    requires Dated(q) && PartsOk(q)
    ensures Dated(Do(q, c, now).0)
  {
    if c.PromoteRecovered? || c.Commit? {
      hide Promotable, NextExpiry, ValidCall, PartsOk;
    } else {
      hide Do, PartsOk, RowsLive, GlobalRoom, ActorRoom, Sum;
      DoEffect(q, c, now);
    }
  }

  lemma {:induction false} DatedRun(w: World, steps: seq<Step>)
    requires Inv(w) && Dated(w.q)
    ensures Dated(RunFrom(w, steps).q)
    decreases |steps|
  {
    hide Inv, Next, Dated, CallOf, PartsOk;
    if steps != [] {
      StepQuota(w, steps[0]);
      NextKeeps(w, steps[0]);
      UploadTheorems.PartsOfReached(w);
      if CallOf(w, steps[0]).Some? { DatedAfterCall(w.q, CallOf(w, steps[0]).value, w.clock); }
      DatedRun(Next(w, steps[0]), steps[1..]);
    }
  }

  // ---------------------------------------------------------------------------
  // A scan lists what it has seen

  /** The scan `p` of the next state goes on, has just begun, or has read one more page. */
  predicate ReadsOn(w: World, s: Step, pid: nat, p: Proc)
    requires p.Scanning?
  {
    || IsAt(w, pid, p)
    || (p.tally.keys == {} && p.asOf == w.clock)
    || (s.ScanReads? && pid in w.procs && w.procs[pid].Scanning? && IsPage(w.bucket, w.procs[pid].cursor, s.page, s.to)
        && p.tally == TallyPage(w.procs[pid].tally, Listing(w.bucket, s.page)) && p.asOf == w.procs[pid].asOf)
  }

  lemma {:induction false} NotFollowed(w: World, p: Proc, p': Proc)
    requires p'.Scanning?
    ensures !Follows(w, p, p')
  {}

  lemma {:induction false} OtherScan(w: World, s: Step, pid: nat, p: Proc)
    requires !s.Act? && !s.PartRequest? && !s.CompleteRequest? && !s.AbortRequest? && IsAt(Next(w, s), pid, p) && p.Scanning?
    ensures ReadsOn(w, s, pid, p)
  {
    hide CallQuota, Abort, Delete, PutPart, Complete, Answer, Grant, ScanOver, IsPage, TallyPage, Listing;
    MovesProcs();
  }

  lemma {:induction false} ScanTask(w: World, s: Step, pid: nat, p: Proc)
    requires IsAt(Next(w, s), pid, p) && p.Scanning?
    ensures ReadsOn(w, s, pid, p)
  {
    if s.Act? {
      hide Advance, Follows;
      if s.pid in w.procs {
        ActFollows(w, s.pid, w.procs[s.pid], s.heard);
        NotFollowed(w, w.procs[s.pid], p);
      }
    } else {
      hide Next;
      if s.PartRequest? || s.CompleteRequest? || s.AbortRequest? {
        RequestTask(w, s, pid, p);
      } else {
        OtherScan(w, s, pid, p);
      }
    }
  }

  /** `k` is stored in none of the states of the run. */
  ghost predicate AbsentThroughout(w: World, steps: seq<Step>, k: Key)
    decreases |steps|
  {
    k !in w.bucket && (steps == [] || AbsentThroughout(Next(w, steps[0]), steps[1..], k))
  }

  /** A scan of the task began at `since` or later and has not listed `k`. */
  predicate Unlisted(w: World, pid: nat, k: Key, since: int) {
    && since <= w.clock
    && (pid in w.procs && w.procs[pid].Scanning? ==> k !in w.procs[pid].tally.keys && since <= w.procs[pid].asOf)
  }

  lemma {:induction false} TallyListed(t: Tally, page: seq<Listed>)
    ensures TallyPage(t, page).keys <= t.keys + KeysOf(page)
    decreases |page|
  {
    if page != [] && t.complete {
      TallyListed(Tally(t.bytes + page[0].size, t.objects + 1, t.keys + {page[0].key}, true), page[1..]);
    }
  }

  lemma {:induction false} ListedKeys(page: seq<Listed>, k: Key)
    requires forall i :: 0 <= i < |page| ==> page[i].key != k
    ensures k !in KeysOf(page)
    decreases |page|
  {
    if page != [] {
      forall i | 0 <= i < |page[1..]| ensures page[1..][i].key != k { assert page[1..][i] == page[i + 1]; }
      ListedKeys(page[1..], k);
    }
  }

  lemma {:induction false} PageLacks(w: World, from: Cursor, page: seq<Key>, to: Cursor, t: Tally, k: Key)
    requires IsPage(w.bucket, from, page, to) && k !in w.bucket && k !in t.keys
    ensures k !in TallyPage(t, Listing(w.bucket, page)).keys
  {
    hide TallyPage, Passed;
    var listed := Listing(w.bucket, page);
    TallyListed(t, listed);
    forall i | 0 <= i < |listed| ensures listed[i].key != k { assert page[i] in page; }
    ListedKeys(listed, k);
  }

  lemma {:induction false} UnlistedStep(w: World, s: Step, pid: nat, k: Key, since: int)
    requires k !in w.bucket && Unlisted(w, pid, k, since)
    ensures Unlisted(Next(w, s), pid, k, since)
  {
    hide Next, IsPage, TallyPage, Listing;
    ClockForward(w, s);
    if pid in Next(w, s).procs && Next(w, s).procs[pid].Scanning? {
      ScanTask(w, s, pid, Next(w, s).procs[pid]);
      if s.ScanReads? && pid in w.procs && w.procs[pid].Scanning? && IsPage(w.bucket, w.procs[pid].cursor, s.page, s.to) {
        PageLacks(w, w.procs[pid].cursor, s.page, s.to, w.procs[pid].tally, k);
      }
    }
  }

  /** A scan never lists an object that is absent while it runs. */
  lemma {:induction false} UnlistedRun(w: World, steps: seq<Step>, pid: nat, k: Key, since: int)
    requires AbsentThroughout(w, steps, k) && Unlisted(w, pid, k, since)
    ensures Unlisted(RunFrom(w, steps), pid, k, since)
    decreases |steps|
  {
    hide Next, Unlisted;
    if steps != [] {
      UnlistedStep(w, steps[0], pid, k, since);
      UnlistedRun(Next(w, steps[0]), steps[1..], pid, k, since);
    }
  }

  // ---------------------------------------------------------------------------
  // What an applied scan drops

  /** The task is a complete scan that nothing has crossed. */
  predicate Applies(w: World, pid: nat) {
    && pid in w.procs && ScanOver(w.procs[pid]) && w.procs[pid].tally.complete
    && w.q.scanToken == Some(w.procs[pid].scan) && w.q.mutation == w.procs[pid].version
    && forall k :: k in w.q.rows ==> w.q.rows[k].phase.Active? || w.q.rows[k].phase.AbortPending?
  }

  /** The receipt is two weeks old and its object was not listed. */
  predicate Forgettable(q: Quota, p: Proc, k: Key)
    requires p.Scanning?
  {
    k in q.ledger && q.ledger[k].completedAt + 1_209_600_000 <= p.asOf && k !in p.tally.keys
  }

  /** The actor's forgettable uploads, with the real sizes of their objects. */
  function Forgotten(w: World, p: Proc, a: string): map<Key, nat>
    requires p.Scanning?
  {
    map k | k in w.q.ledger && k in w.born && Forgettable(w.q, p, k) && w.q.ledger[k].actor == a :: w.born[k].size
  }

  lemma {:induction false} ScanLedger(w: World, pid: nat)
    requires Applies(w, pid) && Dated(w.q)
    ensures var l := Next(w, ScanEnds(pid)).q.ledger;
      forall k :: if k in w.q.ledger && !Forgettable(w.q, w.procs[pid], k) then k in l && l[k] == w.q.ledger[k] else k !in l
  {
    hide CallQuota, Ends, Do;
    MovesQuota();
    ApplyOutcome(w.q, w.procs[pid], w.clock);
  }

  lemma {:induction false} ApplyOutcome(q: Quota, p: Proc, now: int)
    requires p.Scanning? && p.tally.complete && ScanCurrent(q, p.scan, p.version) && Dated(q)
    ensures var l := Do(q, ApplyCall(p), now).0.ledger;
      forall k :: if k in q.ledger && !Forgettable(q, p, k) then k in l && l[k] == q.ledger[k] else k !in l
  {
    hide Unsettled;
  }

  /** In every reachable state: an applied scan drops exactly the receipts that are two
      weeks old and whose objects it did not list. Every actor's count falls by exactly
      those objects, and its bytes by exactly their real sizes. */
  lemma {:induction false} ScanForgetsExactly(bucket: map<Key, Obj>, clock: int, steps: seq<Step>, pid: nat, a: string)
    requires Applies(Reach(bucket, clock, steps), pid)
    ensures var w := Reach(bucket, clock, steps); var l := Next(w, ScanEnds(pid)).q.ledger;
      && (forall k :: if k in w.q.ledger && !Forgettable(w.q, w.procs[pid], k) then k in l && l[k] == w.q.ledger[k] else k !in l)
      && |LedgerBytesOf(l, a)| == |LedgerBytesOf(w.q.ledger, a)| - |Forgotten(w, w.procs[pid], a)|
      && Sum(LedgerBytesOf(l, a)) == Sum(LedgerBytesOf(w.q.ledger, a)) - Sum(Forgotten(w, w.procs[pid], a))
  {
    hide Reach, Inv, Next, Dated, Forgettable, Sum;
    var w := Reach(bucket, clock, steps);
    Reached(bucket, clock, steps);
    ReachDated(bucket, clock, steps);
    ScanLedger(w, pid);
    SplitLedger(w, Next(w, ScanEnds(pid)).q.ledger, w.procs[pid], a);
  }

  lemma {:induction false} ReachDated(bucket: map<Key, Obj>, clock: int, steps: seq<Step>)
    ensures Dated(Reach(bucket, clock, steps).q)
  {
    hide Inv, RunFrom;
    InitialOk(bucket, clock);
    DatedRun(Initial(bucket, clock), steps);
  }

  lemma {:induction false} SplitLedger(w: World, l: map<Key, Receipt>, p: Proc, a: string)
    requires Inv(w) && p.Scanning?
    requires forall k :: if k in w.q.ledger && !Forgettable(w.q, p, k) then k in l && l[k] == w.q.ledger[k] else k !in l
    ensures |LedgerBytesOf(l, a)| + |Forgotten(w, p, a)| == |LedgerBytesOf(w.q.ledger, a)|
    ensures Sum(LedgerBytesOf(l, a)) + Sum(Forgotten(w, p, a)) == Sum(LedgerBytesOf(w.q.ledger, a))
  {
    hide Inv, Sum, Forgettable, Forgotten, LedgerBytesOf;
    forall k | k in w.q.ledger ensures k in w.born && w.born[k].size == w.q.ledger[k].bytes {
      UploadTheorems.ReceiptOfStored(w, k);
    }
    KeptOrForgotten(w, l, p, a);
    SumSplit(LedgerBytesOf(l, a), Forgotten(w, p, a));
  }

  lemma {:induction false} KeptOrForgotten(w: World, l: map<Key, Receipt>, p: Proc, a: string)
    requires p.Scanning? && forall k :: k in w.q.ledger ==> k in w.born && w.born[k].size == w.q.ledger[k].bytes
    requires forall k :: if k in w.q.ledger && !Forgettable(w.q, p, k) then k in l && l[k] == w.q.ledger[k] else k !in l
    ensures forall k :: k in LedgerBytesOf(l, a) ==> k !in Forgotten(w, p, a)
    ensures LedgerBytesOf(l, a) + Forgotten(w, p, a) == LedgerBytesOf(w.q.ledger, a)
  {
    hide Forgettable;
    var x, y, z := LedgerBytesOf(l, a), Forgotten(w, p, a), LedgerBytesOf(w.q.ledger, a);
    assert forall k :: k in y ==> Forgettable(w.q, p, k) by { ForgottenIs(w, p, a); }
    assert (x + y).Keys == z.Keys;
  }

  lemma {:induction false} ForgottenIs(w: World, p: Proc, a: string)
    requires p.Scanning?
    ensures forall k :: k in Forgotten(w, p, a) ==> Forgettable(w.q, p, k)
  {}

  /** Take any state, and any later one in which a scan that the task has begun since is
      ready to be applied. The receipt of an upload that was completed two weeks before the
      first, and whose object was absent from the first to the second, is gone once the
      scan is applied, and the upload no longer counts against its actor. */
  lemma {:induction false} AbsentIsForgotten(bucket: map<Key, Obj>, clock: int, before: seq<Step>, during: seq<Step>, pid: nat, k: Key)
    requires pid !in Reach(bucket, clock, before).procs && AbsentThroughout(Reach(bucket, clock, before), during, k)
    requires var w := Reach(bucket, clock, before + during);
      Applies(w, pid) && k in w.q.ledger && w.q.ledger[k].completedAt + 1_209_600_000 <= Reach(bucket, clock, before).clock
    ensures var w := Reach(bucket, clock, before + during);
      && k !in Next(w, ScanEnds(pid)).q.ledger
      && k in Forgotten(w, w.procs[pid], w.q.ledger[k].actor)
  {
    hide Inv, Next, RunFrom, Dated, AbsentThroughout, Initial;
    RunFromAppend(Initial(bucket, clock), before, during);
    Reached(bucket, clock, before + during);
    ReachDated(bucket, clock, before + during);
    UnlistedRun(Reach(bucket, clock, before), during, pid, k, Reach(bucket, clock, before).clock);
    ScanLedger(Reach(bucket, clock, before + during), pid);
    UploadTheorems.ReceiptOfStored(Reach(bucket, clock, before + during), k);
  }
}
