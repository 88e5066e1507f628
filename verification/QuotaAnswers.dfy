/** What the coordinator answers to each call, exactly, and what the answer is worth:
    for how long a row stays live, claimed or untouched, and when a scan may run. */
module QuotaAnswers {
  import opened Sums
  import opened QuotaModel
  import opened QuotaProtocol

  // ---------------------------------------------------------------------------
  // Reserve

  predicate HexString(s: string, n: nat) { |s| == n && forall c :: c in s ==> c in "0123456789abcdef" }

  /** What `reserve` demands of its arguments; 43 characters are 32 bytes in base64url. */
  predicate GoodRequest(k: Key, u: string, t: string, a: string, size: int) {
    HexString(k, 32) && 1 <= |u| <= 512 && ValidToken(t) && HexString(a, 64) && 1 <= size <= 9_663_676_416
  }

  /** The counters are known, less than an hour old, and no completion is unsettled. */
  predicate Usable(q: Quota, asOf: int) {
    && q.baseline && asOf - q.reconciledAt < 3_600_000
    && forall k :: k in q.rows ==> q.rows[k].phase.Active? || q.rows[k].phase.AbortPending?
  }

  function AllReserved(q: Quota): map<Key, nat> { map k | k in q.rows :: q.rows[k].bytes }

  function ReservedBy(q: Quota, a: string): map<Key, nat> { map k | k in q.rows && q.rows[k].actor == a :: q.rows[k].bytes }

  function RecordedBy(q: Quota, a: string): map<Key, nat> { map k | k in q.ledger && q.ledger[k].actor == a :: q.ledger[k].bytes }

  /** 64 reservations, 4096 objects, 9 GiB. */
  ghost predicate StorageIsFull(q: Quota, size: nat) {
    || |q.rows| >= 64
    || q.completedObjects + |q.rows| >= 4096
    || q.completedBytes + Sum(AllReserved(q)) + size > 9_663_676_416
  }

  /** 4 reservations, 256 reservations and objects together, 2200 MiB. */
  ghost predicate ActorIsFull(q: Quota, a: string, size: nat) {
    || |ReservedBy(q, a)| >= 4
    || |RecordedBy(q, a)| + |ReservedBy(q, a)| >= 256
    || Sum(RecordedBy(q, a)) + Sum(ReservedBy(q, a)) + size > 2_306_867_200
  }

  ghost function ReserveAnswer(q: Quota, k: Key, u: string, t: string, a: string, size: int, asOf: int): Reply {
    if !GoodRequest(k, u, t, a, size) then StorageFull
    else if !Usable(q, asOf) then Unavailable
    else if StorageIsFull(q, size) then StorageFull
    else if ActorIsFull(q, a, size) then ActorLimit
    else if k in q.rows then Threw
    else Reserved(asOf + 21_600_000)
  }

  lemma {:induction false} HexChars(c: char)
    ensures c in "0123456789abcdef" <==> IsHex(c)
  {
    var s := "0123456789abcdef";
    if '0' <= c <= '9' { assert s[c as int - '0' as int] == c; }
    if 'a' <= c <= 'f' { assert s[c as int - 'a' as int + 10] == c; }
  }

  lemma {:induction false} HexStrings(s: string, n: nat)
    ensures HexString(s, n) <==> |s| == n && forall c :: c in s ==> IsHex(c)
  {
    hide IsHex;
    forall c ensures c in "0123456789abcdef" <==> IsHex(c) { HexChars(c); }
  }

  lemma {:induction false} RoomExactly(q: Quota, a: string, size: nat)
    ensures GlobalRoom(q, size) <==> !StorageIsFull(q, size)
    ensures ActorRoom(q, a, size) <==> !ActorIsFull(q, a, size)
  {
    hide Sum;
    assert AllReserved(q) == RowBytes(q.rows);
    assert ReservedBy(q, a) == RowBytesOf(q.rows, a);
    assert RecordedBy(q, a) == LedgerBytesOf(q.ledger, a);
  }

  /** Every refusal has its reason, and without a reason the reservation is granted, for
      six hours from `asOf`, as a new active row and nothing else. */
  lemma {:induction false} ReserveAnsweredExactly(q: Quota, k: Key, u: string, t: string, a: string, size: int, asOf: int, now: int)
    ensures var (q', reply) := Do(q, Call.Reserve(k, u, t, a, size, asOf), now);
      && reply == ReserveAnswer(q, k, u, t, a, size, asOf)
      && SameTables(q', if reply.Reserved? then q.(rows := q.rows[k := Row(u, t, a, size, asOf + 21_600_000, Active, 0, 0)]) else q)
  {
    hide GlobalRoom, ActorRoom, StorageIsFull, ActorIsFull, HexString, IsHex, ValidToken, NextExpiry;
    HexStrings(k, 32);
    HexStrings(a, 64);
    if size >= 0 { RoomExactly(q, a, size); }
  }

  // ---------------------------------------------------------------------------
  // A live upload

  /** The bearer of `t` may still add parts. */
  predicate Live(q: Quota, k: Key, u: string, t: string, now: int) {
    && k in q.rows && q.rows[k].uploadId == u && q.rows[k].token == t
    && q.rows[k].phase.Active? && now < q.rows[k].expiresAt
  }

  lemma {:induction false} LiveIsMarked(q: Quota, k: Key, u: string, t: string, now: int)
    ensures Holds(MarkExpired(q, now), k, u, t, now) <==> Live(q, k, u, t, now)
    ensures Live(q, k, u, t, now) ==> k in MarkExpired(q, now).rows && MarkExpired(q, now).rows[k] == q.rows[k]
    ensures PartsOf(MarkExpired(q, now), k) == PartsOf(q, k)
  {}

  /** Between two marks of the clock: the row is live until it expires. */
  lemma {:induction false} LiveUntil(q: Quota, k: Key, u: string, t: string, now: int)
    ensures Live(Do(q, Tick, now).0, k, u, t, now) <==> Live(q, k, u, t, now)
  {
    hide MarkExpired;
    LiveIsMarked(q, k, u, t, now);
  }

  /** A part is registered exactly while the upload is live, its number is new and it fits
      the reservation; then the row stays live for six hours from the part. */
  lemma {:induction false} PartAnsweredExactly(q: Quota, k: Key, u: string, t: string, n: int, size: int, now: int, later: int)
    ensures var (q', reply) := Do(q, Call.ReservePart(k, u, t, n, size), now);
      && (reply.Accepted? <==>
            && ValidToken(t) && 1 <= n <= 256 && 1 <= size <= 33_554_432
            && Live(q, k, u, t, now) && n !in PartsOf(q, k) && Sum(PartsOf(q, k)) + size <= q.rows[k].bytes)
      && (reply.Accepted? ==>
            && PartsOf(q', k) == PartsOf(q, k)[n := size]
            && (Live(Do(q', Tick, later).0, k, u, t, later) <==> later < now + 21_600_000))
      && (!reply.Accepted? ==> reply.Refused? && PartsOf(q', k) == PartsOf(q, k))
  {
    hide MarkExpired, NextExpiry, Sum, ValidToken, Holds, Do;
    PartOutcome(q, k, u, t, n, size, now);
    LiveIsMarked(q, k, u, t, now);
    LiveUntil(Do(q, Call.ReservePart(k, u, t, n, size), now).0, k, u, t, later);
  }

  lemma {:induction false} PartOutcome(q: Quota, k: Key, u: string, t: string, n: int, size: int, now: int)
    ensures var (q', reply) := Do(q, Call.ReservePart(k, u, t, n, size), now); var m := MarkExpired(q, now);
      && (reply.Accepted? <==>
            && ValidToken(t) && 1 <= n <= 256 && 1 <= size <= 33_554_432
            && Holds(m, k, u, t, now) && n !in PartsOf(m, k) && Sum(PartsOf(m, k)) + size <= m.rows[k].bytes)
      && (reply.Accepted? ==>
            && PartsOf(q', k) == PartsOf(m, k)[n := size]
            && k in q'.rows && q'.rows[k] == m.rows[k].(expiresAt := now + 21_600_000))
      && (!reply.Accepted? ==> reply.Refused? && (PartsOf(q', k) == PartsOf(m, k) || PartsOf(q', k) == PartsOf(q, k)))
  {
    hide MarkExpired, NextExpiry, Sum, ValidToken;
  }

  // ---------------------------------------------------------------------------
  // Claiming, committing and restoring

  /** The claim with operation number `o` stands. */
  predicate ClaimStands(q: Quota, k: Key, u: string, t: string, o: int) {
    && k in q.rows && q.rows[k].uploadId == u && q.rows[k].token == t
    && q.rows[k].phase.Completing? && q.rows[k].op == o
  }

  /** The registered parts are exactly those listed, and make up the reservation. */
  ghost predicate AllListed(q: Quota, k: Key, nums: seq<int>)
    requires k in q.rows
  {
    && 1 <= |nums| <= 256 && (forall i :: 0 <= i < |nums| ==> nums[i] == i + 1)
    && (forall n :: n in PartsOf(q, k) <==> n in nums)
    && Sum(PartsOf(q, k)) == q.rows[k].bytes
  }

  lemma {:induction false} ListedIsOneTo(s: set<int>, nums: seq<int>)
    requires ValidPartList(nums)
    ensures (forall n :: n in s <==> n in nums) <==> IsOneTo(s, |nums|)
  {
    forall n ensures n in nums <==> 1 <= n <= |nums| {
      if 1 <= n <= |nums| { assert nums[n - 1] == n; }
    }
  }

  lemma {:induction false} ClaimOutcome(q: Quota, k: Key, u: string, t: string, nums: seq<int>, now: int)
    ensures var (q', reply) := Do(q, Call.ClaimComplete(k, u, t, nums), now); var m := MarkExpired(q, now);
      && (reply.Claimed? <==>
            && ValidToken(t) && ValidPartList(nums)
            && Holds(m, k, u, t, now) && IsOneTo(PartsOf(m, k).Keys, |nums|) && Sum(PartsOf(m, k)) == m.rows[k].bytes)
      && (reply.Claimed? ==>
            && reply == Reply.Claimed(m.rows[k].bytes, m.rows[k].op + 1) && q'.ledger == q.ledger && q'.mutation > q.mutation && PartsOf(q', k) == PartsOf(m, k)
            && k in q'.rows && q'.rows[k] == m.rows[k].(phase := Completing, op := m.rows[k].op + 1, expiresAt := now + 900_000, retries := 0))
      && (!reply.Claimed? ==> reply.Refused?)
  {
    hide MarkExpired, NextExpiry, Sum, ValidToken, IsOneTo, ValidPartList;
    ExpiryKeepsLedger(q, now);
  }

  lemma {:induction false} ExpiryKeepsLedger(q: Quota, now: int)
    ensures MarkExpired(q, now).ledger == q.ledger && MarkExpired(q, now).mutation >= q.mutation
  {}

  /** A claim is granted exactly while the upload is live and all its parts are listed; it
      answers the reservation's size and the next operation number, and it invalidates a
      scan in progress, as every later move of the row does. */
  lemma {:induction false} ClaimAnsweredExactly(q: Quota, k: Key, u: string, t: string, nums: seq<int>, now: int)
    ensures var (q', reply) := Do(q, Call.ClaimComplete(k, u, t, nums), now);
      && (reply.Claimed? <==> ValidToken(t) && Live(q, k, u, t, now) && AllListed(q, k, nums))
      && (reply.Claimed? ==> reply == Reply.Claimed(q.rows[k].bytes, q.rows[k].op + 1) && ClaimStands(q', k, u, t, q.rows[k].op + 1)
                             && q'.mutation > q.mutation)
  {
    hide MarkExpired, NextExpiry, Sum, ValidToken, Do, Holds;
    ClaimOutcome(q, k, u, t, nums, now);
    LiveIsMarked(q, k, u, t, now);
    if ValidPartList(nums) { ListedIsOneTo(PartsOf(q, k).Keys, nums); }
  }

  /** A granted claim can be committed, with the reserved size, for exactly fifteen minutes. */
  lemma {:induction false} ClaimHoldsFifteenMinutes(q: Quota, k: Key, u: string, t: string, nums: seq<int>, now: int, later: int)
    requires Do(q, Call.ClaimComplete(k, u, t, nums), now).1.Claimed? && k !in q.ledger
    requires q.rows[k].bytes >= 1 && IsSafe(q.rows[k].bytes) && IsSafe(q.rows[k].op + 1)
    ensures var q' := Do(q, Call.ClaimComplete(k, u, t, nums), now).0;
      Do(q', Call.Commit(k, u, t, q.rows[k].op + 1, q.rows[k].bytes), later).1.Accepted? <==> later < now + 900_000
  {
    hide MarkExpired, NextExpiry, Sum, ValidToken, Do, Holds, IsOneTo, ValidPartList;
    ClaimOutcome(q, k, u, t, nums, now);
    LiveIsMarked(q, k, u, t, now);
    CommitOutcome(Do(q, Call.ClaimComplete(k, u, t, nums), now).0, k, u, t, q.rows[k].op + 1, q.rows[k].bytes, later);
  }

  lemma {:induction false} CommitOutcome(q: Quota, k: Key, u: string, t: string, o: int, size: int, now: int)
    requires ClaimStands(q, k, u, t, o) && ValidCall(Call.Commit(k, u, t, o, size)) && k !in q.ledger
    requires Sum(PartsOf(q, k)) == q.rows[k].bytes
    ensures Do(q, Call.Commit(k, u, t, o, size), now).1.Accepted? <==> now < q.rows[k].expiresAt && size == q.rows[k].bytes
  {
    hide Sum, NextExpiry, ValidToken, Promote;
  }

  /** A receipt is dated when it is written, by the worker's commit or by recovery, and may
      be dropped two weeks after that. */
  lemma {:induction false} ReceiptIsDated(q: Quota, c: Call, now: int)
    requires (c.Commit? || c.PromoteRecovered?) && c.key !in q.ledger && c.key in Do(q, c, now).0.ledger
    ensures var r := Do(q, c, now).0.ledger[c.key]; r.completedAt == now && r.verifyAfter == now + 1_209_600_000
  {
    hide Promotable, NextExpiry, ValidCall;
  }

  /** Exactly the holder of the claim restores it; the upload is then live for six hours
      more, with the same parts, and the next claim gets the next number. */
  lemma {:induction false} RestoreReopens(q: Quota, k: Key, u: string, t: string, o: int, now: int, later: int)
    requires ValidToken(t) && 1 <= o <= 0x1F_FFFF_FFFF_FFFF
    ensures var (q', reply) := Do(q, Call.RestoreActive(k, u, t, o), now);
      && (reply.Accepted? <==> ClaimStands(q, k, u, t, o))
      && (reply.Accepted? ==>
            && k in q'.rows && PartsOf(q', k) == PartsOf(q, k) && q'.rows[k].op == o && q'.mutation > q.mutation
            && (Live(q', k, u, t, later) <==> later < now + 21_600_000))
      && (!reply.Accepted? ==> reply.Refused? && SameTables(q, q'))
  {
    hide NextExpiry, ValidToken;
  }

  /** Exactly the holder of the claim hands it to recovery, due after five seconds. */
  lemma {:induction false} DeferralHandsOver(q: Quota, k: Key, u: string, t: string, o: int, now: int)
    requires ValidToken(t) && 1 <= o <= 0x1F_FFFF_FFFF_FFFF
    ensures var (q', reply) := Do(q, Call.DeferCompletion(k, u, t, o), now);
      && (reply.Accepted? <==> ClaimStands(q, k, u, t, o))
      && (reply.Accepted? ==>
            && k in q'.rows && PartsOf(q', k) == PartsOf(q, k) && q'.mutation > q.mutation
            && q'.rows[k] == q.rows[k].(phase := CompletionCleanup, expiresAt := now + 5000, retries := 0))
      && (!reply.Accepted? ==> reply.Refused? && SameTables(q, q'))
  {
    hide NextExpiry, ValidToken;
  }

  // ---------------------------------------------------------------------------
  // Giving up

  /** An abort is claimed exactly while the upload is live; the row is then left to the
      claimer for half a minute, and no part or claim is accepted any more. */
  lemma {:induction false} AbortAnsweredExactly(q: Quota, k: Key, u: string, t: string, now: int)
    requires ValidToken(t)
    ensures var (q', reply) := Do(q, Call.ClaimAbort(k, u, t), now);
      && (reply.Accepted? <==> Live(q, k, u, t, now))
      && (reply.Accepted? ==>
            && k in q'.rows && PartsOf(q', k) == PartsOf(q, k) && q'.mutation > q.mutation
            && q'.rows[k] == q.rows[k].(phase := AbortPending, op := q.rows[k].op + 1, expiresAt := now + 30_000, retries := 0))
      && (!reply.Accepted? ==> reply.Refused?)
  {
    hide MarkExpired, NextExpiry, ValidToken, Holds;
    LiveIsMarked(q, k, u, t, now);
    HeldIsPresent(MarkExpired(q, now), k, u, t, now);
    ExpiryKeepsLedger(q, now);
  }

  lemma {:induction false} HeldIsPresent(q: Quota, k: Key, u: string, t: string, now: int)
    ensures Holds(q, k, u, t, now) ==> k in q.rows
  {}

  /** A failed abort waits for the next retry: 5 s after the first failure, doubling. */
  lemma {:induction false} AbortDeferredExactly(q: Quota, k: Key, u: string, t: string, now: int)
    requires ValidToken(t)
    ensures var (q', reply) := Do(q, Call.DeferAbort(k, u, t), now);
      && (reply.Accepted? <==> k in q.rows && q.rows[k].uploadId == u && q.rows[k].token == t && q.rows[k].phase.AbortPending?)
      && (reply.Accepted? ==>
            && k in q'.rows
            && q'.rows[k] == q.rows[k].(expiresAt := now + RetryDelay(q.rows[k].retries), retries := q.rows[k].retries + 1))
      && (!reply.Accepted? ==> reply.Refused? && SameTables(q, q'))
  {
    hide NextExpiry, ValidToken, RetryDelay;
  }

  /** Everything about `k` is gone and everything else is as it was; a scan in progress is
      invalidated. */
  predicate Dropped(q: Quota, q': Quota, k: Key) {
    && k !in q'.rows && k !in q'.parts && q'.rows == q.rows - {k} && q'.parts == q.parts - {k}
    && q'.ledger == q.ledger && q'.completedBytes == q.completedBytes && q'.completedObjects == q.completedObjects
    && q'.mutation > q.mutation
  }

  /** The bearer's release drops the reservation, whatever its phase; a cleanup drops
      exactly the row it was started for, in a cleanup phase. */
  lemma {:induction false} DroppedExactly(q: Quota, k: Key, u: string, t: string, row: Row, now: int)
    requires ValidToken(t)
    ensures var (q', reply) := Do(q, Call.Release(k, u, t), now);
      if k in q.rows && q.rows[k].uploadId == u && q.rows[k].token == t
      then reply.Accepted? && Dropped(q, q', k) else reply.Refused? && SameTables(q, q')
    ensures var (q', reply) := Do(q, Call.FinishCleanup(k, row), now);
      if k in q.rows && q.rows[k].uploadId == row.uploadId && q.rows[k].op == row.op
         && (q.rows[k].phase.AbortPending? || q.rows[k].phase.CompletionCleanup?)
      then reply.Accepted? && Dropped(q, q', k) else reply.Refused? && SameTables(q, q')
  {
    hide NextExpiry, ValidToken;
  }

  /** A cleanup puts off exactly the row it was started for. */
  lemma {:induction false} RetryPutsOff(q: Quota, k: Key, row: Row, now: int)
    ensures var (q', reply) := Do(q, Call.RetryCleanup(k, row), now);
      if k in q.rows && q.rows[k].uploadId == row.uploadId && q.rows[k].op == row.op && q.rows[k].phase == row.phase
      then reply.Accepted? && q'.rows == q.rows[k := q.rows[k].(retries := q.rows[k].retries + 1, expiresAt := now + RetryDelay(row.retries))]
      else reply.Refused? && SameTables(q, q')
  {
    hide NextExpiry, RetryDelay;
  }

  /** Time alone moves exactly the expired active and claimed rows, each into its cleanup
      phase, due at once. */
  lemma {:induction false} ExpiredExactly(q: Quota, now: int, k: Key)
    requires k in q.rows
    ensures var r := q.rows[k]; var q' := Do(q, Tick, now).0;
      && q'.rows.Keys == q.rows.Keys && q'.parts == q.parts && q'.ledger == q.ledger
      && (q'.rows[k] != r ==> q'.mutation > q.mutation)
      && q'.rows[k] ==
           if now < r.expiresAt || r.phase.AbortPending? || r.phase.CompletionCleanup? then r
           else r.(phase := if r.phase.Active? then AbortPending else CompletionCleanup, expiresAt := now, retries := 0)
  {
    if now >= q.rows[k].expiresAt && (q.rows[k].phase.Active? || q.rows[k].phase.Completing?) { assert AnyDue(q, now); }
  }

  // ---------------------------------------------------------------------------
  // The scan

  /** A scan is opened exactly when the counters are an hour old or unknown, no other scan
      holds the lock, and no completion is unsettled. */
  lemma {:induction false} ScanOpensExactly(q: Quota, scan: nat, now: int)
    ensures var (q', reply) := Do(q, Call.ScanBegin(scan), now);
      && (reply.ScanOpen? <==> !(q.baseline && now - q.reconciledAt < 3_600_000) && q.lockUntil <= now && !Unsettled(q))
      && (reply.ScanOpen? ==> reply.version == q.mutation && ScanCurrent(q', scan, q.mutation))
      && (!reply.ScanOpen? ==> q' == q)
  {}

  /** For five minutes no other scan is opened, and none holds the lock for longer. */
  lemma {:induction false} ScanLocksFiveMinutes(q: Quota, scan: nat, now: int, other: nat, later: int)
    requires Do(q, Call.ScanBegin(scan), now).1.ScanOpen?
    ensures var q' := Do(q, Call.ScanBegin(scan), now).0;
      Do(q', Call.ScanBegin(other), later).1.ScanOpen? <==>
        later >= now + 300_000 && !(q.baseline && later - q.reconciledAt < 3_600_000)
  {}

  /** Once applied, the counters are those of the scan and usable for an hour from its
      start, unless a completion becomes unsettled; the lock is free. */
  lemma {:induction false} AppliedScanIsUsable(q: Quota, scan: nat, version: nat, asOf: int, bytes: nat, objects: nat,
                                               keys: set<Key>, complete: bool, now: int, later: int)
    ensures var (q', reply) := Do(q, Call.ScanApply(scan, version, asOf, bytes, objects, keys, complete), now);
      && (reply.Accepted? <==> ScanCurrent(q, scan, version))
      && (reply.Accepted? ==>
            && q'.completedBytes == bytes && q'.completedObjects == objects && q'.scanToken == None
            && (Usable(q', later) <==> later < asOf + 3_600_000))
      && (!reply.Accepted? ==>
            && q'.completedBytes == q.completedBytes && q'.completedObjects == q.completedObjects
            && q'.ledger == q.ledger && q'.rows == q.rows)
  {}

  /** A scan that throws frees the lock and makes the counters unusable: every reserve is
      refused as unavailable until a new scan, which may start at once. */
  lemma {:induction false} ThrownScanReopens(q: Quota, scan: nat, now: int, other: nat, later: int, asOf: int)
    requires q.scanToken == Some(scan) && later >= 3_600_000 && asOf >= 3_600_000
    ensures var q' := Do(q, Call.ScanFail(scan), now).0;
      && q'.scanToken == None && q'.rows == q.rows && q'.ledger == q.ledger
      && !Usable(q', asOf)
      && (Do(q', Call.ScanBegin(other), later).1.ScanOpen? <==> !Unsettled(q))
  {}

  /** The alarm, when it goes off, does to the expired rows what time alone does. */
  lemma {:induction false} AlarmMarksExpired(q: Quota, now: int)
    requires q.alarm.Some? && q.alarm.value <= now
    ensures var q' := Do(q, Call.AlarmFires, now).0;
      && q'.rows == Do(q, Tick, now).0.rows && q'.mutation == Do(q, Tick, now).0.mutation
      && q'.alarm == None && q'.handlers == q.handlers + 1
  {}
}
