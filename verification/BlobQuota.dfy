/** The coordinator as the durable object it is: tables and counters updated in
    place. Each method is one atomic section of the source and is proved to move
    the state exactly as `QuotaModel.Do` says. */
module BlobQuota {
  import opened Sums
  import opened QuotaModel

  lemma NextExpiryUnique(rows: map<Key, Row>, a: Option<int>, b: Option<int>)
    requires IsNextExpiry(rows, a) && IsNextExpiry(rows, b)
    ensures a == b
  {
    if a.Some? && b.Some? {
      var j :| j in rows && rows[j].expiresAt == a.value;
      var k :| k in rows && rows[k].expiresAt == b.value;
      assert b.value <= rows[j].expiresAt && a.value <= rows[k].expiresAt;
    }
  }

  /** A list of parts that is 1..N names exactly the numbers 1..N. */
  lemma SameNumbers(s: set<int>, nums: seq<int>)
    requires ValidPartList(nums)
    ensures s == (set n | n in nums) <==> IsOneTo(s, |nums|)
  {
    var listed := set n | n in nums;
    forall n ensures n in listed <==> 1 <= n <= |nums| {
      if 1 <= n <= |nums| { assert nums[n - 1] == n; }
    }
    assert IsOneTo(listed, |nums|);
    if IsOneTo(s, |nums|) { assert s == listed; }
  }

  class BlobQuota {
    var rows: map<Key, Row>
    var parts: map<Key, map<int, nat>>
    var ledger: map<Key, Receipt>
    var completedBytes: nat
    var completedObjects: nat
    var reconciledAt: int
    var mutation: nat
    var scanToken: Option<nat>
    var lockUntil: int
    var baseline: bool
    var alarm: Option<int>
    var handlers: nat

    function State(): Quota
      reads this
    {
      Quota(rows, parts, ledger, completedBytes, completedObjects, reconciledAt, mutation, scanToken, lockUntil, baseline, alarm, handlers)
    }

    constructor ()
      ensures State() == EMPTY_QUOTA
    {
      rows, parts, ledger := map[], map[], map[];
      completedBytes, completedObjects, reconciledAt, mutation := 0, 0, 0, 0;
      scanToken, lockUntil, baseline, alarm, handlers := None, 0, false, None, 0;
    }

    method MarkDue(now: int)
      modifies this`rows, this`mutation
      ensures State() == MarkExpired(old(State()), now)
    {
      if AnyDue(State(), now) {
        rows := map k | k in rows :: Expire(rows[k], now);
        mutation := mutation + 1;
      }
    }

    /** `SELECT MIN(expires_at)`, then set or delete the single alarm. */
    method ScheduleNext()
      modifies this`alarm
      ensures State() == Schedule(old(State()))
    {
      var next: Option<int> := None;
      var left := rows;
      while left != map[]
        invariant forall k :: k in left ==> k in rows && left[k] == rows[k]
        invariant forall k :: k in rows && k !in left ==> next.Some? && next.value <= rows[k].expiresAt
        invariant next.Some? ==> exists k :: k in rows && rows[k].expiresAt == next.value
        invariant alarm == old(alarm)
        decreases |left|
      {
        var k :| k in left;
        if next.None? || left[k].expiresAt < next.value { next := Some(left[k].expiresAt); }
        assert (left - {k}).Keys == left.Keys - {k};
        left := left - {k};
      }
      assert next.None? ==> rows == map[] by { if k :| k in rows { assert next.Some?; } }
      NextExpiryUnique(rows, next, NextExpiry(rows));
      alarm := next;
    }

    /** The storing transaction of `reserve`, run once a usable baseline was awaited. */
    method Reserve(k: Key, u: string, t: string, a: string, size: int, asOf: int) returns (reply: Reply)
      modifies this
      ensures (State(), reply) == Do(old(State()), Call.Reserve(k, u, t, a, size, asOf), 0)
    {
      hide DoReservePart, DoClaimComplete, DoClaimAbort, DoRestoreActive, DoDeferAbort, DoDeferCompletion, DoRelease,
           DoCommit, DoFinishCleanup, DoRetryCleanup, DoPromoteRecovered, DoScanBegin, DoScanApply, Sum, NextExpiry,
           Unsettled, RowBytes, RowBytesOf, LedgerBytesOf;
      if !ValidCall(Call.Reserve(k, u, t, a, size, asOf)) { return StorageFull; }
      if !baseline || asOf - reconciledAt >= RECONCILE_INTERVAL_MS || Unsettled(State()) {
        reply := Unavailable;
      } else {
        var held := Total(RowBytes(rows));
        var mine := RowBytesOf(rows, a);
        var mineBytes := Total(mine);
        var kept := LedgerBytesOf(ledger, a);
        var keptBytes := Total(kept);
        if |rows| >= MAX_GLOBAL_UPLOADS || completedObjects + |rows| + 1 > MAX_GLOBAL_OBJECTS
           || completedBytes + held + size > STORAGE_BUDGET {
          reply := StorageFull;
        } else if |mine| >= MAX_ACTOR_UPLOADS || |kept| + |mine| + 1 > MAX_ACTOR_OBJECTS
                  || keptBytes + mineBytes + size > ACTOR_BUDGET {
          reply := ActorLimit;
        } else if k in rows {
          return Threw;
        } else {
          rows := rows[k := Row(u, t, a, size, asOf + RESERVATION_TTL_MS, Active, 0, 0)];
          reply := Reserved(asOf + RESERVATION_TTL_MS);
        }
      }
      ScheduleNext();
    }

    method ReservePart(k: Key, u: string, t: string, n: int, size: int, now: int) returns (reply: Reply)
      modifies this
      ensures (State(), reply) == Do(old(State()), Call.ReservePart(k, u, t, n, size), now)
    {
      reply := Refused;
      if !ValidCall(Call.ReservePart(k, u, t, n, size)) { return; }
      MarkDue(now);
      if Holds(State(), k, u, t, now) && n !in PartsOf(State(), k) {
        var used := Total(PartsOf(State(), k));
        if used + size <= rows[k].bytes {
          parts := parts[k := PartsOf(State(), k)[n := size]];
          rows := rows[k := rows[k].(expiresAt := now + RESERVATION_TTL_MS)];
          reply := Accepted;
        }
      }
      ScheduleNext();
    }

    method ClaimComplete(k: Key, u: string, t: string, nums: seq<int>, now: int) returns (reply: Reply)
      modifies this
      ensures (State(), reply) == Do(old(State()), Call.ClaimComplete(k, u, t, nums), now)
    {
      hide DoReserve, DoReservePart, DoClaimAbort, DoRestoreActive, DoDeferAbort, DoDeferCompletion, DoRelease,
           DoCommit, DoFinishCleanup, DoRetryCleanup, DoPromoteRecovered, DoScanBegin, DoScanApply, Sum,
           MarkExpired, NextExpiry;
      reply := Refused;
      if !ValidCall(Call.ClaimComplete(k, u, t, nums)) { return; }
      MarkDue(now);
      var registered := PartsOf(State(), k);
      var used := Total(registered);
      SameNumbers(registered.Keys, nums);
      if Holds(State(), k, u, t, now) && registered.Keys == (set n | n in nums) && used == rows[k].bytes {
        var row := rows[k];
        rows := rows[k := row.(phase := Completing, op := row.op + 1, expiresAt := now + COMPLETING_GRACE_MS, retries := 0)];
        mutation := mutation + 1;
        reply := Claimed(row.bytes, row.op + 1);
      }
      ScheduleNext();
    }

    method ClaimAbort(k: Key, u: string, t: string, now: int) returns (reply: Reply)
      modifies this
      ensures (State(), reply) == Do(old(State()), Call.ClaimAbort(k, u, t), now)
    {
      hide DoReserve, DoReservePart, DoClaimComplete, DoRestoreActive, DoDeferAbort, DoDeferCompletion, DoRelease,
           DoCommit, DoFinishCleanup, DoRetryCleanup, DoPromoteRecovered, DoScanBegin, DoScanApply, Sum,
           MarkExpired, NextExpiry;
      reply := Refused;
      if !ValidToken(t) { return; }
      MarkDue(now);
      if Holds(State(), k, u, t, now) {
        var row := rows[k];
        rows := rows[k := row.(phase := AbortPending, op := row.op + 1, expiresAt := now + ABORT_CLAIM_MS, retries := 0)];
        mutation := mutation + 1;
        reply := Accepted;
      }
      ScheduleNext();
    }

    method RestoreActive(k: Key, u: string, t: string, o: int, now: int) returns (reply: Reply)
      modifies this
      ensures (State(), reply) == Do(old(State()), Call.RestoreActive(k, u, t, o), now)
    {
      reply := Refused;
      if !ValidCall(Call.RestoreActive(k, u, t, o)) { return; }
      if ClaimedBy(State(), k, u, t, o) {
        rows := rows[k := rows[k].(phase := Active, expiresAt := now + RESERVATION_TTL_MS, retries := 0)];
        mutation := mutation + 1;
        reply := Accepted;
      }
      ScheduleNext();
    }

    method DeferAbort(k: Key, u: string, t: string, now: int) returns (reply: Reply)
      modifies this
      ensures (State(), reply) == Do(old(State()), Call.DeferAbort(k, u, t), now)
    {
      hide DoReserve, DoReservePart, DoClaimComplete, DoClaimAbort, DoRestoreActive, DoDeferCompletion, DoRelease,
           DoCommit, DoFinishCleanup, DoRetryCleanup, DoPromoteRecovered, DoScanBegin, DoScanApply, Sum, NextExpiry, RetryDelay;
      reply := Refused;
      if !ValidToken(t) { return; }
      if Has(State(), k, u) && rows[k].phase.AbortPending? && rows[k].token == t {
        rows := rows[k := rows[k].(expiresAt := now + RetryDelay(rows[k].retries), retries := rows[k].retries + 1)];
        reply := Accepted;
      }
      ScheduleNext();
    }

    method DeferCompletionCleanup(k: Key, u: string, t: string, o: int, now: int) returns (reply: Reply)
      modifies this
      ensures (State(), reply) == Do(old(State()), Call.DeferCompletion(k, u, t, o), now)
    {
      reply := Refused;
      if !ValidCall(Call.DeferCompletion(k, u, t, o)) { return; }
      if ClaimedBy(State(), k, u, t, o) {
        rows := rows[k := rows[k].(phase := CompletionCleanup, expiresAt := now + CLEANUP_RETRY_BASE_MS, retries := 0)];
        mutation := mutation + 1;
        reply := Accepted;
      }
      ScheduleNext();
    }

    method DeleteRow(k: Key)
      modifies this`rows, this`parts, this`mutation
      ensures State() == DropRow(old(State()), k)
    {
      parts := parts - {k};
      rows := rows - {k};
      mutation := mutation + 1;
    }

    method Release(k: Key, u: string, t: string) returns (reply: Reply)
      modifies this
      ensures (State(), reply) == Do(old(State()), Call.Release(k, u, t), 0)
    {
      reply := Refused;
      if !ValidToken(t) { return; }
      if Has(State(), k, u) && rows[k].token == t {
        DeleteRow(k);
        reply := Accepted;
      }
      ScheduleNext();
    }

    /** `promoteCompleted`: the row becomes a ledger receipt in one transaction. */
    method PromoteCompleted(k: Key, size: int, now: int) returns (done: bool)
      requires k in rows
      modifies this`rows, this`parts, this`ledger, this`completedBytes, this`completedObjects, this`mutation
      ensures done <==> old(Promotable(State(), k, size))
      ensures State() == if done then Promote(old(State()), k, size, now) else old(State())
    {
      var claimed := Total(PartsOf(State(), k));
      var row := rows[k];
      if !IsSafe(size) || size != row.bytes || claimed != row.bytes || k in ledger { return false; }
      ledger := ledger[k := Receipt(row.actor, size, now, now + LEDGER_VERIFY_AFTER_MS, row.uploadId, row.token, row.op)];
      DeleteRow(k);
      completedBytes := completedBytes + size;
      completedObjects := completedObjects + 1;
      done := true;
    }

    method Commit(k: Key, u: string, t: string, o: int, size: int, now: int) returns (reply: Reply)
      modifies this
      ensures (State(), reply) == Do(old(State()), Call.Commit(k, u, t, o, size), now)
    {
      reply := Refused;
      if !ValidCall(Call.Commit(k, u, t, o, size)) { return; }
      if !Has(State(), k, u) {
        if ExactReceipt(State(), k, u, t, o, size) { reply := Accepted; }
      } else if ClaimedBy(State(), k, u, t, o) && now < rows[k].expiresAt {
        var done := PromoteCompleted(k, size, now);
        if done { reply := Accepted; }
      }
      ScheduleNext();
    }

    method FinishCleanup(k: Key, row: Row) returns (reply: Reply)
      modifies this
      ensures (State(), reply) == Do(old(State()), Call.FinishCleanup(k, row), 0)
    {
      if !Has(State(), k, row.uploadId) || rows[k].op != row.op || !InCleanup(rows[k].phase) { return Refused; }
      DeleteRow(k);
      reply := Accepted;
    }

    method RetryCleanup(k: Key, row: Row, now: int) returns (reply: Reply)
      modifies this`rows
      ensures (State(), reply) == Do(old(State()), Call.RetryCleanup(k, row), now)
    {
      if !Has(State(), k, row.uploadId) || rows[k].op != row.op || rows[k].phase != row.phase { return Refused; }
      rows := rows[k := rows[k].(retries := rows[k].retries + 1, expiresAt := now + RetryDelay(row.retries))];
      reply := Accepted;
    }

    method PromoteRecovered(k: Key, row: Row, size: nat, now: int) returns (reply: Reply)
      modifies this
      ensures (State(), reply) == Do(old(State()), Call.PromoteRecovered(k, row, size), now)
    {
      if !Has(State(), k, row.uploadId) || !rows[k].phase.CompletionCleanup? || rows[k].op != row.op { return Refused; }
      var done := PromoteCompleted(k, size, now);
      reply := if done then Accepted else Refused;
    }

    /** The opening transaction of `reconcile`. */
    method ScanBegin(scan: nat, now: int) returns (reply: Reply)
      modifies this`scanToken, this`lockUntil
      ensures (State(), reply) == Do(old(State()), Call.ScanBegin(scan), now)
    {
      if baseline && now - reconciledAt < RECONCILE_INTERVAL_MS { return Accepted; }
      if lockUntil > now || Unsettled(State()) { return Refused; }
      scanToken, lockUntil := Some(scan), now + RECONCILE_LOCK_MS;
      reply := ScanOpen(mutation);
    }

    method ScanFail(scan: nat)
      modifies this`scanToken, this`lockUntil, this`reconciledAt
      ensures State() == DoScanFail(old(State()), scan)
    {
      if scanToken == Some(scan) { scanToken, lockUntil, reconciledAt := None, 0, 0; }
    }

    /** The closing transaction of `reconcile`. */
    method ScanApply(scan: nat, version: nat, asOf: int, t: Tally) returns (reply: Reply)
      modifies this
      ensures (State(), reply) == DoScanApply(old(State()), scan, version, asOf, t.bytes, t.objects, t.keys, t.complete)
    {
      if scanToken != Some(scan) || mutation != version || Unsettled(State()) {
        ScanFail(scan);
        return Refused;
      }
      completedBytes, completedObjects, reconciledAt := t.bytes, t.objects, asOf;
      scanToken, lockUntil, baseline := None, 0, true;
      if t.complete {
        ledger := map k | k in ledger && !(ledger[k].verifyAfter <= asOf && k !in t.keys) :: ledger[k];
      }
      reply := Accepted;
    }

    method AlarmFires(now: int) returns (reply: Reply)
      requires alarm.Some? && alarm.value <= now
      modifies this
      ensures (State(), reply) == Do(old(State()), Call.AlarmFires, now)
    {
      hide DoReserve, DoReservePart, DoClaimComplete, DoClaimAbort, DoRestoreActive, DoDeferAbort,
           DoDeferCompletion, DoRelease, DoCommit, DoFinishCleanup, DoRetryCleanup, DoPromoteRecovered,
           DoScanBegin, DoScanApply, Sum, NextExpiry;
      alarm, handlers := None, handlers + 1;
      MarkDue(now);
      reply := Accepted;
    }

    method AlarmDone() returns (reply: Reply)
      requires handlers > 0
      modifies this`handlers, this`alarm
      ensures (State(), reply) == Do(old(State()), Call.AlarmDone, 0)
    {
      handlers := handlers - 1;
      ScheduleNext();
      reply := Accepted;
    }
  }

  /** The inner loop of `scanBucket` over one page. */
  method ReadPage(start: Tally, page: seq<Listed>) returns (t: Tally)
    ensures t == TallyPage(start, page)
  {
    t := start;
    var i := 0;
    while i < |page| && t.complete
      invariant 0 <= i <= |page|
      invariant TallyPage(start, page) == TallyPage(t, page[i..])
      decreases |page| - i
    {
      var bytes, objects := t.bytes + page[i].size, t.objects + 1;
      assert page[i..][1..] == page[i + 1..];
      if bytes > STORAGE_BUDGET || objects > MAX_GLOBAL_OBJECTS {
        t := Tally(bytes, objects, t.keys, false);
      } else {
        t := Tally(bytes, objects, t.keys + {page[i].key}, true);
      }
      i := i + 1;
    }
  }
}
