/** The protocol a caller of the coordinator relies on: exact and idempotent
    receipts, fencing by operation number, the life of a reservation, and the
    alarm that guarantees its cleanup. */
module QuotaProtocol {
  import opened Sums
  import opened QuotaModel
  import opened QuotaInvariants

  // ---------------------------------------------------------------------------
  // Commit

  /** Promotion of a claimed row can fail only on a wrong actual size or an
      already recorded key: its parts always add up. */
  lemma PromotionFailsExactly(q: Quota, k: Key, size: nat)
    requires PartsOk(q) && k in q.rows && WasClaimed(q.rows[k])
    ensures Promotable(q, k, size) <==> size == q.rows[k].bytes && k !in q.ledger
  {
    assert RowOk(q, k);
  }

  /** When exactly a commit is acknowledged, and that the acknowledgement always
      means an exact receipt in the ledger. */
  lemma CommitAcceptedExactly(q: Quota, k: Key, u: string, t: string, o: int, size: int, now: int)
    requires PartsOk(q) && ValidCall(Commit(k, u, t, o, size))
    ensures var (q', reply) := Do(q, Commit(k, u, t, o, size), now);
      && (reply.Accepted? <==>
            if Has(q, k, u)
            then ClaimedBy(q, k, u, t, o) && now < q.rows[k].expiresAt && size == q.rows[k].bytes && k !in q.ledger
            else ExactReceipt(q, k, u, t, o, size))
      && (reply.Accepted? ==> ExactReceipt(q', k, u, t, o, size))
  {
    hide PartsOk, Promotable, Sum;
    if ClaimedBy(q, k, u, t, o) { PromotionFailsExactly(q, k, size); }
  }

  /** Everything but the alarm. */
  predicate SameTables(a: Quota, b: Quota) { b == a.(alarm := b.alarm) }

  /** An exact retry is acknowledged again and moves no charge. */
  lemma CommitRetryIdempotent(q: Quota, k: Key, u: string, t: string, o: int, size: int, now: int)
    requires ValidCall(Commit(k, u, t, o, size)) && !Has(q, k, u) && ExactReceipt(q, k, u, t, o, size)
    ensures Do(q, Commit(k, u, t, o, size), now).1.Accepted?
    ensures SameTables(q, Do(q, Commit(k, u, t, o, size), now).0)
  {}

  /** Alarm recovery writes the very receipt the worker's commit asks for. */
  lemma RecoveryWritesSameReceipt(q: Quota, k: Key, row: Row, size: nat, now: int)
    ensures var (q', reply) := Do(q, PromoteRecovered(k, row, size), now);
      reply.Accepted? ==> k in q.rows && k !in q'.rows && ExactReceipt(q', k, row.uploadId, q.rows[k].token, row.op, size)
  {}

  /** A call carrying an operation number other than the row's changes no table. */
  lemma StaleOperationChangesNothing(q: Quota, k: Key, u: string, t: string, o: int, size: int, now: int)
    requires k in q.rows && q.rows[k].op != o
    ensures SameTables(q, Do(q, RestoreActive(k, u, t, o), now).0) && Do(q, RestoreActive(k, u, t, o), now).1.Refused?
    ensures SameTables(q, Do(q, DeferCompletion(k, u, t, o), now).0) && Do(q, DeferCompletion(k, u, t, o), now).1.Refused?
    ensures SameTables(q, Do(q, Commit(k, u, t, o, size), now).0)
    ensures Has(q, k, u) ==> Do(q, Commit(k, u, t, o, size), now).1.Refused?
  {}

  /** A direct commit and a cleanup of the same row exclude each other. */
  lemma CommitExcludesCleanup(q: Quota, k: Key, u: string, t: string, o: int, size: int, row: Row, found: nat, now: int)
    requires Has(q, k, u) && Do(q, Commit(k, u, t, o, size), now).1.Accepted?
    ensures Do(q, FinishCleanup(k, row), now).1.Refused?
    ensures Do(q, PromoteRecovered(k, row, found), now).1.Refused?
    ensures var q' := Do(q, Commit(k, u, t, o, size), now).0;
      && Do(q', FinishCleanup(k, row), now) == (q', Refused)
      && Do(q', PromoteRecovered(k, row, found), now) == (q', Refused)
  {}

  // ---------------------------------------------------------------------------
  // The life of a reservation, over whole runs

  predicate Reserves(c: Call, k: Key) { c.Reserve? && c.key == k }

  predicate NeverReserves(events: seq<Event>, k: Key) {
    forall i :: 0 <= i < |events| ==> !Reserves(events[i].call, k)
  }

  lemma SamePartsGrow(q: Quota, q': Quota, k: Key)
    requires k in q.rows && PartsOf(q', k) == PartsOf(q, k)
    ensures PartsGrow(q, q', k)
  {}

  /** What one call that does not reserve `k` can do to the row of `k`. */
  lemma RowAfterCall(q: Quota, c: Call, now: int, k: Key)
    requires PartsOk(q) && !Reserves(c, k)
    ensures var (q', reply) := Do(q, c, now);
      && PartsOk(q')
      && (k in q'.rows ==> k in q.rows && SameOwner(q.rows[k], q'.rows[k])
                           && PhaseStep(q.rows[k].phase, q'.rows[k].phase) && PartsGrow(q, q', k))
      && (k in q.rows && k !in q'.rows ==>
            && (c.Release? || c.FinishCleanup? || c.Commit? || c.PromoteRecovered?) && c.key == k && reply.Accepted?)
      && (k in q'.ledger && k !in q.ledger ==>
            && k in q.rows && (q.rows[k].phase.Completing? || q.rows[k].phase.CompletionCleanup?)
            && q'.ledger[k].bytes == q.rows[k].bytes && q'.ledger[k].actor == q.rows[k].actor)
      && (k in q.ledger && k in q'.ledger ==> q'.ledger[k] == q.ledger[k])
  {
    hide Do, PartsOk, PartsGrow, GlobalRoom, ActorRoom, Sum;
    var (q', reply) := Do(q, c, now);
    DoEffect(q, c, now);
    if k in q.rows && k in q'.rows && PartsOf(q', k) == PartsOf(q, k) { SamePartsGrow(q, q', k); }
  }

  /** Over any run that does not reserve the key anew: the row keeps its owner, a
      cleanup phase is final, and the parts of a claimed upload stay frozen,
      also after `restoreActive`. */
  lemma {:induction false} RowOverRun(q: Quota, events: seq<Event>, k: Key)
    requires PartsOk(q) && NeverReserves(events, k)
    ensures var q' := Run(q, events);
      && PartsOk(q')
      && (k in q'.rows ==> k in q.rows && SameOwner(q.rows[k], q'.rows[k])
                           && PhaseStep(q.rows[k].phase, q'.rows[k].phase) && PartsGrow(q, q', k))
    decreases |events|
  {
    hide Do, PartsOk, Full, Sum;
    if events != [] {
      var m := Do(q, events[0].call, events[0].now).0;
      RowAfterCall(q, events[0].call, events[0].now, k);
      assert NeverReserves(events[1..], k);
      RowOverRun(m, events[1..], k);
      if k in Run(q, events).rows && Full(q, k) { FullStays(q, m, k); }
    }
  }

  lemma FullStays(q: Quota, q': Quota, k: Key)
    requires k in q.rows && k in q'.rows && Full(q, k) && PartsGrow(q, q', k) && SameOwner(q.rows[k], q'.rows[k])
    ensures Full(q', k)
  {}

  /** An upload whose abort was claimed is never recorded as completed. */
  lemma {:induction false} AbortedNeverLedgered(q: Quota, events: seq<Event>, k: Key)
    requires PartsOk(q) && NeverReserves(events, k)
    requires k !in q.ledger && (k in q.rows ==> q.rows[k].phase.AbortPending?)
    ensures k !in Run(q, events).ledger
    ensures k in Run(q, events).rows ==> Run(q, events).rows[k].phase.AbortPending?
    decreases |events|
  {
    hide Do, PartsOk, Full, Sum, PartsGrow;
    if events != [] {
      RowAfterCall(q, events[0].call, events[0].now, k);
      assert NeverReserves(events[1..], k);
      AbortedNeverLedgered(Do(q, events[0].call, events[0].now).0, events[1..], k);
    }
  }

  /** Once the row of a key is gone, no later run creates or changes a receipt for it:
      an object key is charged to the ledger at most once. */
  lemma {:induction false} ReceiptOnlyOnce(q: Quota, events: seq<Event>, k: Key)
    requires PartsOk(q) && NeverReserves(events, k) && k !in q.rows
    ensures k !in Run(q, events).rows
    ensures k in Run(q, events).ledger ==> k in q.ledger && Run(q, events).ledger[k] == q.ledger[k]
    decreases |events|
  {
    hide Do, PartsOk, Full, Sum, PartsGrow;
    if events != [] {
      RowAfterCall(q, events[0].call, events[0].now, k);
      assert NeverReserves(events[1..], k);
      ReceiptOnlyOnce(Do(q, events[0].call, events[0].now).0, events[1..], k);
    }
  }

  predicate DropsReceipt(q: Quota, c: Call, k: Key) {
    && c.ScanApply? && c.complete && k in q.ledger && q.ledger[k].verifyAfter <= c.asOf && k !in c.keys
  }

  /** No event of the run is a complete scan that verified `k` gone. */
  ghost predicate NeverDrops(q: Quota, events: seq<Event>, k: Key)
    decreases |events|
  {
    events == [] || (!DropsReceipt(q, events[0].call, k) && NeverDrops(Do(q, events[0].call, events[0].now).0, events[1..], k))
  }

  lemma ReceiptAfterCall(q: Quota, c: Call, now: int, k: Key)
    requires PartsOk(q) && !Reserves(c, k) && k !in q.rows && k in q.ledger && !DropsReceipt(q, c, k)
    ensures var q' := Do(q, c, now).0; k !in q'.rows && k in q'.ledger && q'.ledger[k] == q.ledger[k]
  {
    hide PartsOk, Kept, Added, Removed, Promoted, Effect, Sum;
    RowAfterCall(q, c, now, k);
    if c.ScanApply? {
      assert k in Do(q, c, now).0.ledger;
    } else {
      LedgerOnlyGrows(q, c, now);
    }
  }

  lemma LedgerOnlyGrows(q: Quota, c: Call, now: int)
    requires PartsOk(q) && !c.ScanApply?
    ensures q.ledger.Keys <= Do(q, c, now).0.ledger.Keys
  {
    hide Do, PartsOk, RowsLive, Sum;
    DoEffect(q, c, now);
  }

  /** The receipt makes an exact retry succeed after any later run, until a
      complete scan has verified that the object itself is gone. */
  lemma {:induction false} RetrySucceedsAfterAnyRun(q: Quota, events: seq<Event>, k: Key, u: string, t: string, o: int, size: int, now: int)
    requires PartsOk(q) && NeverReserves(events, k) && NeverDrops(q, events, k)
    requires ValidCall(Commit(k, u, t, o, size)) && k !in q.rows && ExactReceipt(q, k, u, t, o, size)
    ensures Do(Run(q, events), Commit(k, u, t, o, size), now).1.Accepted?
    ensures SameTables(Run(q, events), Do(Run(q, events), Commit(k, u, t, o, size), now).0)
    decreases |events|
  {
    hide PartsOk, Sum;
    if events == [] {
      CommitRetryIdempotent(q, k, u, t, o, size, now);
    } else {
      hide Do;
      var m := Do(q, events[0].call, events[0].now).0;
      ReceiptAfterCall(q, events[0].call, events[0].now, k);
      RowAfterCall(q, events[0].call, events[0].now, k);
      assert NeverReserves(events[1..], k);
      RetrySucceedsAfterAnyRun(m, events[1..], k, u, t, o, size, now);
    }
  }

  // ---------------------------------------------------------------------------
  // The scan lock

  /** A scan whose token was superseded changes nothing at all, and one crossed
      by a mutation applies nothing. */
  lemma SupersededScanChangesNothing(q: Quota, s: nat, version: nat, asOf: int, bytes: nat, objects: nat, keys: set<Key>, full: bool, now: int)
    ensures q.scanToken != Some(s) ==> Do(q, ScanApply(s, version, asOf, bytes, objects, keys, full), now).0 == q
    ensures q.mutation != version ==>
      var q' := Do(q, ScanApply(s, version, asOf, bytes, objects, keys, full), now).0;
      q'.completedBytes == q.completedBytes && q'.completedObjects == q.completedObjects && q'.ledger == q.ledger && q'.baseline == q.baseline
  {}

  // ---------------------------------------------------------------------------
  // The alarm

  lemma {:induction false} Pow2Grows(m: nat, n: nat)
    requires m <= n
    ensures Pow2(m) <= Pow2(n)
  {
    if m < n { Pow2Grows(m, n - 1); }
  }

  /** Cleanup retries double from five seconds to one hour and stay there; capping the
      exponent at 10 cuts nothing off. */
  lemma {:induction false} RetryBackoff(n: nat)
    ensures RetryDelay(0) == 5000
    ensures RetryDelay(n + 1) == if 2 * RetryDelay(n) < 3_600_000 then 2 * RetryDelay(n) else 3_600_000
  {
    assert Pow2(5) == 32;
    assert Pow2(10) == 1024;
    if n >= 9 { Pow2Grows(9, n); }
  }

  /** Some alarm is set at or before every expiry, or a handler is running that
      will set it when it ends. */
  predicate AlarmCovers(q: Quota) {
    || q.handlers > 0
    || (forall k :: k in q.rows ==> q.alarm.Some? && q.alarm.value <= q.rows[k].expiresAt)
  }

  /** Every public call that returns leaves the alarm at the least expiry. */
  lemma PublicCallSchedules(q: Quota, c: Call, now: int)
    requires IsPublic(c) && ValidCall(c)
    ensures var (q', reply) := Do(q, c, now); !reply.Threw? ==> IsNextExpiry(q'.rows, q'.alarm) && AlarmCovers(q')
  {
    hide Body, Marked;
  }

  /** A retry that would move the expiry before the pending alarm: the one
      internal step that is not followed by a reschedule. */
  predicate RetryOutrunsAlarm(q: Quota, c: Call, now: int) {
    && c.RetryCleanup?
    && DoRetryCleanup(q, c.key, c.row, now).1.Accepted?
    && q.handlers == 0
    && (q.alarm.None? || now + RetryDelay(c.row.retries) < q.alarm.value)
  }

  lemma ExpiryOnlyLater(q: Quota, now: int)
    ensures AlarmCovers(q) ==> AlarmCovers(MarkExpired(q, now))
  {}

  /** The alarm stays in front of every expiry under a call exactly when the call
      is not such a retry. */
  lemma AlarmCoversExactly(q: Quota, c: Call, now: int)
    requires AlarmCovers(q)
    ensures AlarmCovers(Do(q, c, now).0) <==> !RetryOutrunsAlarm(q, c, now)
  {
    hide Sum, RetryDelay;
    if IsPublic(c) && ValidCall(c) {
      if c.Reserve? && Do(q, c, now).1.Threw? {
        ThrewChangesNothing(q, c, now);
      } else {
        PublicCallSchedules(q, c, now);
        OnlyReserveThrows(q, c, now);
      }
    } else if ValidCall(c) {
      InternalCovers(q, c, now);
    }
  }

  lemma OnlyReserveThrows(q: Quota, c: Call, now: int)
    ensures Do(q, c, now).1.Threw? ==> c.Reserve?
  {
    hide MarkExpired, NextExpiry;
  }

  lemma ThrewChangesNothing(q: Quota, c: Call, now: int)
    requires c.Reserve? && Do(q, c, now).1.Threw?
    ensures Do(q, c, now).0 == q
  {}

  lemma InternalCovers(q: Quota, c: Call, now: int)
    requires AlarmCovers(q) && !IsPublic(c)
    ensures AlarmCovers(Do(q, c, now).0) <==> !RetryOutrunsAlarm(q, c, now)
  {
    hide Sum, RetryDelay, MarkExpired;
    ExpiryOnlyLater(q, now);
    var q' := Do(q, c, now).0;
    match c
    case RetryCleanup(k, row) =>
      if DoRetryCleanup(q, k, row, now).1.Accepted? {
        assert q'.rows[k].expiresAt == now + RetryDelay(row.retries);
        if q.handlers == 0 { assert q.alarm.Some? && q.alarm.value <= q.rows[k].expiresAt; }
      }
    case AlarmFires => assert AlarmCovers(q');
    case _ =>
  }

  // ---------------------------------------------------------------------------
  // A run that ends with such a retry

  function Zeros(n: nat): (s: string)
    ensures |s| == n && forall c :: c in s ==> c == '0'
  {
    if n == 0 then "" else "0" + Zeros(n - 1)
  }

  const KEY: Key := Zeros(32)
  const TOKEN: string := Zeros(43)
  const ACTOR: string := Zeros(64)
  const UPLOAD_ID := "u"

  lemma {:induction false} Constants()
    ensures ValidKey(KEY) && ValidToken(TOKEN) && ValidActor(ACTOR) && 1 <= |UPLOAD_ID| <= 512
  {}

  /** The coordinator after a first scan of an empty bucket. */
  const COUNTED := EMPTY_QUOTA.(baseline := true)

  /** The first reservation, at time 0, of an upload of one plaintext byte. */
  const FRESH_ROW := Row(UPLOAD_ID, TOKEN, ACTOR, 29, 21_600_000, Active, 0, 0)

  lemma {:induction false} FirstScan()
    ensures Do(Do(EMPTY_QUOTA, ScanBegin(1), 0).0, ScanApply(1, 0, 0, 0, 0, {}, true), 0).0 == COUNTED
  {
    hide NextExpiry;
    var q := EMPTY_QUOTA.(scanToken := Some(1), lockUntil := 300_000);
    assert Do(EMPTY_QUOTA, ScanBegin(1), 0).0 == q;
    assert Do(q, ScanApply(1, 0, 0, 0, 0, {}, true), 0).0.ledger == map[];
  }

  lemma {:induction false} RoomForFirst()
    ensures GlobalRoom(COUNTED, 29) && ActorRoom(COUNTED, ACTOR, 29) && !Unsettled(COUNTED)
  {
    var q := COUNTED;
    assert RowBytes(q.rows) == map[] && RowBytesOf(q.rows, ACTOR) == map[] && LedgerBytesOf(q.ledger, ACTOR) == map[];
  }

  lemma {:induction false} FirstReserved()
    ensures var (q', reply) := Do(COUNTED, Reserve(KEY, UPLOAD_ID, TOKEN, ACTOR, 29, 0), 0);
      reply.Reserved? && q'.rows == map[KEY := FRESH_ROW] && q'.parts == map[] && q'.ledger == map[] && q'.handlers == 0
  {
    hide GlobalRoom, ActorRoom, Unsettled, NextExpiry, ValidKey, ValidToken, ValidActor;
    Constants();
    RoomForFirst();
  }

  /** The row once its abort is claimed, due at 30 s: what a cleanup started then holds. */
  const SNAPSHOT := Row(UPLOAD_ID, TOKEN, ACTOR, 29, 30_000, AbortPending, 1, 0)

  /** Its abort is claimed; when it is due two cleanups start, and one of them fails and
      retries; the worker, whose own abort failed too, defers the row once more. */
  const DEFERRED: seq<Event> := [
    Event(ScanBegin(1), 0), Event(ScanApply(1, 0, 0, 0, 0, {}, true), 0),
    Event(Reserve(KEY, UPLOAD_ID, TOKEN, ACTOR, 29, 0), 0), Event(ClaimAbort(KEY, UPLOAD_ID, TOKEN), 0),
    Event(RetryCleanup(KEY, SNAPSHOT), 30_000), Event(DeferAbort(KEY, UPLOAD_ID, TOKEN), 30_001)]

  lemma {:induction false} AbortClaimed(q: Quota)
    requires q.rows == map[KEY := FRESH_ROW] && q.handlers == 0
    ensures var q' := Do(q, ClaimAbort(KEY, UPLOAD_ID, TOKEN), 0).0; q'.rows == map[KEY := SNAPSHOT] && q'.handlers == 0
  {
    hide NextExpiry, ValidToken;
    Constants();
    assert MarkExpired(q, 0) == q;
  }

  lemma {:induction false} CleanupRetried(q: Quota)
    requires q.rows == map[KEY := SNAPSHOT] && q.handlers == 0
    ensures var q' := Do(q, RetryCleanup(KEY, SNAPSHOT), 30_000).0;
      q'.rows == map[KEY := SNAPSHOT.(expiresAt := 35_000, retries := 1)] && q'.handlers == 0
  {
    assert RetryDelay(0) == 5000;
  }

  lemma {:induction false} AbortDeferred(q: Quota)
    requires q.rows == map[KEY := SNAPSHOT.(expiresAt := 35_000, retries := 1)] && q.handlers == 0
    ensures var q' := Do(q, DeferAbort(KEY, UPLOAD_ID, TOKEN), 30_001).0;
      && q'.rows == map[KEY := SNAPSHOT.(expiresAt := 40_001, retries := 2)] && q'.handlers == 0
      && q'.alarm == Some(40_001)
  {
    hide ValidToken;
    Constants();
    assert RetryDelay(1) == 10_000;
    var q' := Do(q, DeferAbort(KEY, UPLOAD_ID, TOKEN), 30_001).0;
    assert q'.rows == map[KEY := SNAPSHOT.(expiresAt := 40_001, retries := 2)];
    assert KEY in q'.rows;
    assert IsNextExpiry(q'.rows, q'.alarm);
  }

  lemma {:induction false} SixEvents(q: Quota, a: Event, b: Event, c: Event, d: Event, e: Event, f: Event)
    ensures var p := Do(Do(Do(Do(q, a.call, a.now).0, b.call, b.now).0, c.call, c.now).0, d.call, d.now).0;
      && Run(q, [a, b, c, d]) == p
      && Run(q, [a, b, c, d, e, f]) == Do(Do(p, e.call, e.now).0, f.call, f.now).0
  {
    hide Do;
    var m := Do(Do(q, a.call, a.now).0, b.call, b.now).0;
    assert [a, b, c, d][1..] == [b, c, d] && [b, c, d][1..] == [c, d] && [c, d][1..] == [d] && [d][1..] == [];
    assert Run(q, [a, b, c, d]) == Run(m, [c, d]);
    var p := Do(Do(m, c.call, c.now).0, d.call, d.now).0;
    assert Run(m, [c, d]) == Run(p, []) == p;
    assert [a, b, c, d, e, f][1..] == [b, c, d, e, f] && [b, c, d, e, f][1..] == [c, d, e, f];
    assert Run(q, [a, b, c, d, e, f]) == Run(m, [c, d, e, f]);
    assert [c, d, e, f][1..] == [d, e, f] && [d, e, f][1..] == [e, f] && [e, f][1..] == [f] && [f][1..] == [];
    assert Run(m, [c, d, e, f]) == Run(p, [e, f]);
    var r := Do(Do(p, e.call, e.now).0, f.call, f.now).0;
    assert Run(p, [e, f]) == Run(r, []) == r;
  }

  /** A run of well-formed calls from the fresh schema after which the other cleanup, with
      the row it read when it was due, moves the expiry five seconds before the alarm. */
  lemma {:induction false} RetryCanOutrunAlarm()
    ensures forall i :: 0 <= i < |DEFERRED| ==> ValidCall(DEFERRED[i].call)
    ensures var due := Run(EMPTY_QUOTA, DEFERRED[..4]);
      KEY in due.rows && due.rows[KEY] == SNAPSHOT && InCleanup(SNAPSHOT.phase) && SNAPSHOT.expiresAt <= 30_000
    ensures var q, late := Run(EMPTY_QUOTA, DEFERRED), RetryCleanup(KEY, SNAPSHOT);
      AlarmCovers(q) && RetryOutrunsAlarm(q, late, 30_002) && !AlarmCovers(Do(q, late, 30_002).0)
  {
    hide Do, ValidKey, ValidToken, ValidActor, Run, AlarmCovers, RetryOutrunsAlarm, Zeros;
    Constants();
    var s := DEFERRED;
    assert s[..4] == [s[0], s[1], s[2], s[3]];
    assert s == [s[0], s[1], s[2], s[3], s[4], s[5]];
    SixEvents(EMPTY_QUOTA, s[0], s[1], s[2], s[3], s[4], s[5]);
    FirstScan();
    FirstReserved();
    var q2 := Do(COUNTED, s[2].call, 0).0;
    AbortClaimed(q2);
    var q3 := Do(q2, s[3].call, 0).0;
    CleanupRetried(q3);
    AbortDeferred(Do(q3, s[4].call, 30_000).0);
    Outruns(Do(Do(q3, s[4].call, 30_000).0, s[5].call, 30_001).0);
  }

  lemma {:induction false} Outruns(q: Quota)
    requires q.rows == map[KEY := SNAPSHOT.(expiresAt := 40_001, retries := 2)] && q.handlers == 0 && q.alarm == Some(40_001)
    ensures var late := RetryCleanup(KEY, SNAPSHOT);
      AlarmCovers(q) && RetryOutrunsAlarm(q, late, 30_002) && !AlarmCovers(Do(q, late, 30_002).0)
  {
    assert RetryDelay(0) == 5000;
    AlarmCoversExactly(q, RetryCleanup(KEY, SNAPSHOT), 30_002);
  }
}
