/** The coordinator of blob uploads as a value: its tables, and one function for
    each atomic section of `BlobQuota`. The class in BlobQuota.dfy is proved
    against these functions; the theorems about every run are about them. */
module QuotaModel {
  import opened Sums

  type Key = string

  const STORAGE_BUDGET: nat := 9 * 1024 * 1024 * 1024
  const ACTOR_BUDGET: nat := 2200 * 1024 * 1024
  const MAX_ACTOR_UPLOADS: nat := 4
  const MAX_ACTOR_OBJECTS: nat := 256
  const MAX_GLOBAL_UPLOADS: nat := 64
  const MAX_GLOBAL_OBJECTS: nat := 4096
  const RESERVATION_TTL_MS: int := 6 * 60 * 60 * 1000
  const COMPLETING_GRACE_MS: int := 15 * 60 * 1000
  const RECONCILE_INTERVAL_MS: int := 60 * 60 * 1000
  const RECONCILE_LOCK_MS: int := 5 * 60 * 1000
  const CLEANUP_RETRY_BASE_MS: int := 5000
  const CLEANUP_RETRY_MAX_MS: int := 60 * 60 * 1000
  const ABORT_CLAIM_MS: int := 30000
  const LEDGER_VERIFY_AFTER_MS: int := 14 * 24 * 60 * 60 * 1000
  const MAX_PARTS: nat := 256
  const MAX_PART: nat := 32 * 1024 * 1024
  const MAX_SAFE: int := 0x1F_FFFF_FFFF_FFFF

  datatype Phase = Active | Completing | AbortPending | CompletionCleanup

  /** A row of `upload_reservations`. SHA-256 is taken as ideal, so the stored
      token hash is represented by the token itself. */
  datatype Row = Row(uploadId: string, token: string, actor: string, bytes: nat,
                     expiresAt: int, phase: Phase, op: nat, retries: nat)

  /** A row of `completed_objects`. */
  datatype Receipt = Receipt(actor: string, bytes: nat, completedAt: int, verifyAfter: int,
                             uploadId: string, token: string, op: nat)

  /** The whole durable state, with the object's single alarm and the number of
      `alarm()` handlers that have started and not yet rescheduled. */
  datatype Quota = Quota(
    rows: map<Key, Row>,
    parts: map<Key, map<int, nat>>,
    ledger: map<Key, Receipt>,
    completedBytes: nat,
    completedObjects: nat,
    reconciledAt: int,
    mutation: nat,
    scanToken: Option<nat>,
    lockUntil: int,
    baseline: bool,
    alarm: Option<int>,
    handlers: nat)

  const EMPTY_QUOTA := Quota(map[], map[], map[], 0, 0, 0, 0, None, 0, false, None, 0)

  // ---------------------------------------------------------------------------
  // Argument checks

  predicate IsHex(c: char) { '0' <= c <= '9' || 'a' <= c <= 'f' }

  predicate IsUrlChar(c: char) {
    'A' <= c <= 'Z' || 'a' <= c <= 'z' || '0' <= c <= '9' || c == '_' || c == '-'
  }

  predicate ValidKey(k: string) { |k| == 32 && forall c :: c in k ==> IsHex(c) }
  predicate ValidActor(a: string) { |a| == 64 && forall c :: c in a ==> IsHex(c) }
  predicate ValidToken(t: string) { |t| == 43 && forall c :: c in t ==> IsUrlChar(c) }
  predicate IsSafe(n: int) { -MAX_SAFE <= n <= MAX_SAFE }

  /** The completed part list must be exactly 1..N. */
  predicate ValidPartList(nums: seq<int>) {
    1 <= |nums| <= MAX_PARTS && forall i :: 0 <= i < |nums| ==> nums[i] == i + 1
  }

  // ---------------------------------------------------------------------------
  // Queries

  function PartsOf(q: Quota, k: Key): map<int, nat> {
    if k in q.parts then q.parts[k] else map[]
  }

  /** `s` is exactly {1, ..., n}. */
  ghost predicate IsOneTo(s: set<int>, n: nat) { forall i :: i in s <==> 1 <= i <= n }

  function RowBytes(rows: map<Key, Row>): map<Key, nat> {
    map k | k in rows :: rows[k].bytes
  }

  function RowBytesOf(rows: map<Key, Row>, actor: string): map<Key, nat> {
    map k | k in rows && rows[k].actor == actor :: rows[k].bytes
  }

  function LedgerBytesOf(ledger: map<Key, Receipt>, actor: string): map<Key, nat> {
    map k | k in ledger && ledger[k].actor == actor :: ledger[k].bytes
  }

  predicate Unsettled(q: Quota) {
    exists k :: k in q.rows && (q.rows[k].phase.Completing? || q.rows[k].phase.CompletionCleanup?)
  }

  predicate Has(q: Quota, k: Key, uploadId: string) {
    k in q.rows && q.rows[k].uploadId == uploadId
  }

  /** The bearer of `token` may act on an unexpired active upload. */
  predicate Holds(q: Quota, k: Key, uploadId: string, token: string, now: int) {
    && Has(q, k, uploadId)
    && q.rows[k].phase.Active?
    && now < q.rows[k].expiresAt
    && q.rows[k].token == token
  }

  function Pow2(n: nat): nat { if n == 0 then 1 else 2 * Pow2(n - 1) }

  function RetryDelay(attempt: nat): int {
    var d := CLEANUP_RETRY_BASE_MS * Pow2(if attempt < 10 then attempt else 10);
    if d < CLEANUP_RETRY_MAX_MS then d else CLEANUP_RETRY_MAX_MS
  }

  // ---------------------------------------------------------------------------
  // Internal sections

  function Expire(r: Row, now: int): Row {
    if r.expiresAt <= now && r.phase.Active? then
      r.(phase := AbortPending, expiresAt := now, retries := 0)
    else if r.expiresAt <= now && r.phase.Completing? then
      r.(phase := CompletionCleanup, expiresAt := now, retries := 0)
    else r
  }

  predicate AnyDue(q: Quota, now: int) {
    exists k :: k in q.rows && q.rows[k].expiresAt <= now && (q.rows[k].phase.Active? || q.rows[k].phase.Completing?)
  }

  function MarkExpired(q: Quota, now: int): Quota {
    if AnyDue(q, now) then
      q.(rows := map k | k in q.rows :: Expire(q.rows[k], now), mutation := q.mutation + 1)
    else q
  }

  /** `a` is the least expiry of any row, or None without rows. */
  predicate IsNextExpiry(rows: map<Key, Row>, a: Option<int>) {
    match a
    case None => rows == map[]
    case Some(t) =>
      && (exists k :: k in rows && rows[k].expiresAt == t)
      && (forall k :: k in rows ==> t <= rows[k].expiresAt)
  }

  lemma {:induction false} NextExpiryExists(rows: map<Key, Row>)
    ensures exists a :: IsNextExpiry(rows, a)
    decreases |rows|
  {
    if rows == map[] {
      assert IsNextExpiry(rows, None);
    } else {
      var k :| k in rows;
      var rest := rows - {k};
      assert rest.Keys == rows.Keys - {k};
      NextExpiryExists(rest);
      var a :| IsNextExpiry(rest, a);
      assert forall j :: j in rows ==> j == k || (j in rest && rest[j] == rows[j]);
      if a.Some? && a.value <= rows[k].expiresAt {
        var j :| j in rest && rest[j].expiresAt == a.value;
        assert rows[j].expiresAt == a.value;
        assert IsNextExpiry(rows, a);
      } else {
        assert IsNextExpiry(rows, Some(rows[k].expiresAt));
      }
    }
  }

  ghost function NextExpiry(rows: map<Key, Row>): (a: Option<int>)
    ensures IsNextExpiry(rows, a)
  {
    NextExpiryExists(rows);
    var a :| IsNextExpiry(rows, a);
    a
  }

  ghost function Schedule(q: Quota): Quota { q.(alarm := NextExpiry(q.rows)) }

  function Bump(q: Quota): Quota { q.(mutation := q.mutation + 1) }

  function SetRow(q: Quota, k: Key, r: Row): Quota { q.(rows := q.rows[k := r]) }

  function DropRow(q: Quota, k: Key): Quota {
    q.(rows := q.rows - {k}, parts := q.parts - {k}, mutation := q.mutation + 1)
  }

  // ---------------------------------------------------------------------------
  // Public operations, one per RPC

  datatype Call =
    | Tick
    | GiveUp
    | Reserve(key: Key, uploadId: string, token: string, actor: string, size: int, asOf: int)
    | ReservePart(key: Key, uploadId: string, token: string, number: int, size: int)
    | ClaimComplete(key: Key, uploadId: string, token: string, numbers: seq<int>)
    | ClaimAbort(key: Key, uploadId: string, token: string)
    | RestoreActive(key: Key, uploadId: string, token: string, operation: int)
    | DeferAbort(key: Key, uploadId: string, token: string)
    | DeferCompletion(key: Key, uploadId: string, token: string, operation: int)
    | Release(key: Key, uploadId: string, token: string)
    | Commit(key: Key, uploadId: string, token: string, operation: int, size: int)
    | FinishCleanup(key: Key, row: Row)
    | RetryCleanup(key: Key, row: Row)
    | PromoteRecovered(key: Key, row: Row, found: nat)
    | ScanBegin(scan: nat)
    | ScanApply(scan: nat, version: nat, asOf: int, bytes: nat, objects: nat, keys: set<Key>, complete: bool)
    | ScanFail(scan: nat)
    | AlarmFires
    | AlarmDone

  datatype Reply =
    | Refused
    | Accepted
    | Claimed(bytes: nat, operation: nat)
    | Reserved(expiresAt: int)
    | StorageFull
    | ActorLimit
    | Unavailable
    | Threw
    | ScanOpen(version: nat)

  ghost predicate GlobalRoom(q: Quota, size: nat) {
    && |q.rows| < MAX_GLOBAL_UPLOADS
    && q.completedObjects + |q.rows| + 1 <= MAX_GLOBAL_OBJECTS
    && q.completedBytes + Sum(RowBytes(q.rows)) + size <= STORAGE_BUDGET
  }

  ghost predicate ActorRoom(q: Quota, actor: string, size: nat) {
    && |RowBytesOf(q.rows, actor)| < MAX_ACTOR_UPLOADS
    && |LedgerBytesOf(q.ledger, actor)| + |RowBytesOf(q.rows, actor)| + 1 <= MAX_ACTOR_OBJECTS
    && Sum(LedgerBytesOf(q.ledger, actor)) + Sum(RowBytesOf(q.rows, actor)) + size <= ACTOR_BUDGET
  }

  /** The storing transaction of `reserve`; `asOf` is the clock value read before
      the bucket scan it may have waited for. */
  ghost function DoReserve(q: Quota, k: Key, uploadId: string, token: string, actor: string, size: nat, asOf: int): (Quota, Reply) {
    if !q.baseline || asOf - q.reconciledAt >= RECONCILE_INTERVAL_MS || Unsettled(q) then (q, Unavailable)
    else if !GlobalRoom(q, size) then (q, StorageFull)
    else if !ActorRoom(q, actor, size) then (q, ActorLimit)
    else if k in q.rows then (q, Threw)
    else
      var r := Row(uploadId, token, actor, size, asOf + RESERVATION_TTL_MS, Active, 0, 0);
      (SetRow(q, k, r), Reserved(r.expiresAt))
  }

  ghost function DoReservePart(q: Quota, k: Key, uploadId: string, token: string, n: int, size: nat, now: int): (Quota, Reply) {
    if !Holds(q, k, uploadId, token, now) || n in PartsOf(q, k) || Sum(PartsOf(q, k)) + size > q.rows[k].bytes
    then (q, Refused)
    else
      var r := q.rows[k].(expiresAt := now + RESERVATION_TTL_MS);
      (SetRow(q.(parts := q.parts[k := PartsOf(q, k)[n := size]]), k, r), Accepted)
  }

  ghost function DoClaimComplete(q: Quota, k: Key, uploadId: string, token: string, nums: seq<int>, now: int): (Quota, Reply) {
    if !Holds(q, k, uploadId, token, now) || !IsOneTo(PartsOf(q, k).Keys, |nums|) || Sum(PartsOf(q, k)) != q.rows[k].bytes
    then (q, Refused)
    else
      var r := q.rows[k].(phase := Completing, op := q.rows[k].op + 1, expiresAt := now + COMPLETING_GRACE_MS, retries := 0);
      (Bump(SetRow(q, k, r)), Claimed(r.bytes, r.op))
  }

  function DoClaimAbort(q: Quota, k: Key, uploadId: string, token: string, now: int): (Quota, Reply) {
    if !Holds(q, k, uploadId, token, now) then (q, Refused)
    else
      var r := q.rows[k].(phase := AbortPending, op := q.rows[k].op + 1, expiresAt := now + ABORT_CLAIM_MS, retries := 0);
      (Bump(SetRow(q, k, r)), Accepted)
  }

  predicate ClaimedBy(q: Quota, k: Key, uploadId: string, token: string, operation: int) {
    Has(q, k, uploadId) && q.rows[k].phase.Completing? && q.rows[k].op == operation && q.rows[k].token == token
  }

  function DoRestoreActive(q: Quota, k: Key, uploadId: string, token: string, operation: int, now: int): (Quota, Reply) {
    if !ClaimedBy(q, k, uploadId, token, operation) then (q, Refused)
    else
      var r := q.rows[k].(phase := Active, expiresAt := now + RESERVATION_TTL_MS, retries := 0);
      (Bump(SetRow(q, k, r)), Accepted)
  }

  function DoDeferCompletion(q: Quota, k: Key, uploadId: string, token: string, operation: int, now: int): (Quota, Reply) {
    if !ClaimedBy(q, k, uploadId, token, operation) then (q, Refused)
    else
      var r := q.rows[k].(phase := CompletionCleanup, expiresAt := now + CLEANUP_RETRY_BASE_MS, retries := 0);
      (Bump(SetRow(q, k, r)), Accepted)
  }

  function DoDeferAbort(q: Quota, k: Key, uploadId: string, token: string, now: int): (Quota, Reply) {
    if !Has(q, k, uploadId) || !q.rows[k].phase.AbortPending? || q.rows[k].token != token then (q, Refused)
    else
      var r := q.rows[k].(expiresAt := now + RetryDelay(q.rows[k].retries), retries := q.rows[k].retries + 1);
      (SetRow(q, k, r), Accepted)
  }

  function DoRelease(q: Quota, k: Key, uploadId: string, token: string): (Quota, Reply) {
    if !Has(q, k, uploadId) || q.rows[k].token != token then (q, Refused)
    else (DropRow(q, k), Accepted)
  }

  /** `promoteCompleted`: move a claimed row into the completed-object ledger. */
  ghost predicate Promotable(q: Quota, k: Key, size: int)
    requires k in q.rows
  {
    && IsSafe(size)
    && size == q.rows[k].bytes
    && Sum(PartsOf(q, k)) == q.rows[k].bytes
    && k !in q.ledger
  }

  ghost function Promote(q: Quota, k: Key, size: nat, now: int): Quota
    requires k in q.rows
  {
    var r := q.rows[k];
    q.(ledger := q.ledger[k := Receipt(r.actor, size, now, now + LEDGER_VERIFY_AFTER_MS, r.uploadId, r.token, r.op)],
       rows := q.rows - {k},
       parts := q.parts - {k},
       completedBytes := q.completedBytes + size,
       completedObjects := q.completedObjects + 1,
       mutation := q.mutation + 1)
  }

  predicate ExactReceipt(q: Quota, k: Key, uploadId: string, token: string, operation: int, size: int) {
    && k in q.ledger
    && q.ledger[k].uploadId == uploadId
    && q.ledger[k].token == token
    && q.ledger[k].op == operation
    && q.ledger[k].bytes == size
  }

  ghost function DoCommit(q: Quota, k: Key, uploadId: string, token: string, operation: int, size: nat, now: int): (Quota, Reply) {
    if !Has(q, k, uploadId) then
      (q, if ExactReceipt(q, k, uploadId, token, operation, size) then Accepted else Refused)
    else if !ClaimedBy(q, k, uploadId, token, operation) || q.rows[k].expiresAt <= now || !Promotable(q, k, size) then
      (q, Refused)
    else (Promote(q, k, size, now), Accepted)
  }

  predicate InCleanup(p: Phase) { p.AbortPending? || p.CompletionCleanup? }

  function DoFinishCleanup(q: Quota, k: Key, row: Row): (Quota, Reply) {
    if !Has(q, k, row.uploadId) || q.rows[k].op != row.op || !InCleanup(q.rows[k].phase) then (q, Refused)
    else (DropRow(q, k), Accepted)
  }

  function DoRetryCleanup(q: Quota, k: Key, row: Row, now: int): (Quota, Reply) {
    if !Has(q, k, row.uploadId) || q.rows[k].op != row.op || q.rows[k].phase != row.phase then (q, Refused)
    else (SetRow(q, k, q.rows[k].(retries := q.rows[k].retries + 1, expiresAt := now + RetryDelay(row.retries))), Accepted)
  }

  ghost function DoPromoteRecovered(q: Quota, k: Key, row: Row, size: nat, now: int): (Quota, Reply) {
    if !Has(q, k, row.uploadId) || !q.rows[k].phase.CompletionCleanup? || q.rows[k].op != row.op || !Promotable(q, k, size)
    then (q, Refused)
    else (Promote(q, k, size, now), Accepted)
  }

  // ---------------------------------------------------------------------------
  // The bucket scan

  /** What a bucket listing has added up so far. */
  datatype Tally = Tally(bytes: nat, objects: nat, keys: set<Key>, complete: bool)

  datatype Listed = Listed(key: Key, size: nat)

  /** Reading one listing page, object by object; stops above either ceiling. */
  function TallyPage(t: Tally, page: seq<Listed>): Tally
    decreases |page|
  {
    if page == [] || !t.complete then t
    else
      var bytes, objects := t.bytes + page[0].size, t.objects + 1;
      if bytes > STORAGE_BUDGET || objects > MAX_GLOBAL_OBJECTS
      then Tally(bytes, objects, t.keys, false)
      else TallyPage(Tally(bytes, objects, t.keys + {page[0].key}, true), page[1..])
  }

  function DoScanBegin(q: Quota, scan: nat, now: int): (Quota, Reply) {
    if q.baseline && now - q.reconciledAt < RECONCILE_INTERVAL_MS then (q, Accepted)
    else if q.lockUntil > now || Unsettled(q) then (q, Refused)
    else (q.(scanToken := Some(scan), lockUntil := now + RECONCILE_LOCK_MS), ScanOpen(q.mutation))
  }

  function CancelScan(q: Quota): Quota { q.(scanToken := None, lockUntil := 0, reconciledAt := 0) }

  function DoScanFail(q: Quota, scan: nat): Quota {
    if q.scanToken == Some(scan) then CancelScan(q) else q
  }

  predicate ScanCurrent(q: Quota, scan: nat, version: nat) {
    q.scanToken == Some(scan) && q.mutation == version && !Unsettled(q)
  }

  function DoScanApply(q: Quota, scan: nat, version: nat, asOf: int, bytes: nat, objects: nat, keys: set<Key>, complete: bool): (Quota, Reply) {
    if !ScanCurrent(q, scan, version) then (DoScanFail(q, scan), Refused)
    else
      (q.(completedBytes := bytes, completedObjects := objects, reconciledAt := asOf,
          scanToken := None, lockUntil := 0, baseline := true,
          ledger := if complete
                    then map k | k in q.ledger && !(q.ledger[k].verifyAfter <= asOf && k !in keys) :: q.ledger[k]
                    else q.ledger), Accepted)
  }

  // ---------------------------------------------------------------------------
  // One step and a run of the coordinator

  /** The argument checks each RPC makes before it looks at any table. */
  predicate ValidCall(c: Call) {
    match c
    case Reserve(k, u, t, a, n, _) =>
      ValidKey(k) && 1 <= |u| <= 512 && ValidToken(t) && ValidActor(a) && IsSafe(n) && 1 <= n <= STORAGE_BUDGET
    case ReservePart(_, _, t, n, size) => ValidToken(t) && IsSafe(n) && 1 <= n <= MAX_PARTS && IsSafe(size) && 1 <= size <= MAX_PART
    case ClaimComplete(_, _, t, nums) => ValidToken(t) && ValidPartList(nums)
    case ClaimAbort(_, _, t) => ValidToken(t)
    case RestoreActive(_, _, t, o) => ValidToken(t) && IsSafe(o) && o >= 1
    case DeferAbort(_, _, t) => ValidToken(t)
    case DeferCompletion(_, _, t, o) => ValidToken(t) && IsSafe(o) && o >= 1
    case Release(_, _, t) => ValidToken(t)
    case Commit(_, _, t, o, size) => ValidToken(t) && IsSafe(o) && o >= 1 && IsSafe(size) && size >= 1
    case _ => true
  }

  /** The RPCs that first move expired rows into a cleanup phase. */
  predicate MarksExpired(c: Call) {
    c.Tick? || c.GiveUp? || c.ReservePart? || c.ClaimComplete? || c.ClaimAbort? || c.AlarmFires?
  }

  /** The public RPCs, all of which end by rescheduling the alarm. */
  predicate IsPublic(c: Call) {
    c.GiveUp? || c.Reserve? || c.ReservePart? || c.ClaimComplete? || c.ClaimAbort? || c.RestoreActive? || c.DeferAbort?
    || c.DeferCompletion? || c.Release? || c.Commit?
  }

  /** The transaction of a call whose arguments passed. */
  ghost function Body(q: Quota, c: Call, now: int): (Quota, Reply)
    requires ValidCall(c)
  {
    match c
    case Tick => (q, Accepted)
    case GiveUp => (q, Unavailable)
    case Reserve(k, u, t, a, n, asOf) => DoReserve(q, k, u, t, a, n, asOf)
    case ReservePart(k, u, t, n, size) => DoReservePart(q, k, u, t, n, size, now)
    case ClaimComplete(k, u, t, nums) => DoClaimComplete(q, k, u, t, nums, now)
    case ClaimAbort(k, u, t) => DoClaimAbort(q, k, u, t, now)
    case RestoreActive(k, u, t, o) => DoRestoreActive(q, k, u, t, o, now)
    case DeferAbort(k, u, t) => DoDeferAbort(q, k, u, t, now)
    case DeferCompletion(k, u, t, o) => DoDeferCompletion(q, k, u, t, o, now)
    case Release(k, u, t) => DoRelease(q, k, u, t)
    case Commit(k, u, t, o, size) => DoCommit(q, k, u, t, o, size, now)
    case FinishCleanup(k, r) => DoFinishCleanup(q, k, r)
    case RetryCleanup(k, r) => DoRetryCleanup(q, k, r, now)
    case PromoteRecovered(k, r, size) => DoPromoteRecovered(q, k, r, size, now)
    case ScanBegin(s) => DoScanBegin(q, s, now)
    case ScanApply(s, v, asOf, b, n, keys, full) => DoScanApply(q, s, v, asOf, b, n, keys, full)
    case ScanFail(s) => (DoScanFail(q, s), Accepted)
    case AlarmFires =>
      if q.alarm.Some? && q.alarm.value <= now then (q.(alarm := None, handlers := q.handlers + 1), Accepted) else (q, Refused)
    case AlarmDone =>
      if q.handlers > 0 then (Schedule(q.(handlers := q.handlers - 1)), Accepted) else (q, Refused)
  }

  function Marked(q: Quota, c: Call, now: int): Quota { if MarksExpired(c) then MarkExpired(q, now) else q }

  /** A whole call. An SQL exception leaves before the alarm is rescheduled. */
  ghost function Do(q: Quota, c: Call, now: int): (Quota, Reply) {
    if !ValidCall(c) then (q, if c.Reserve? then StorageFull else Refused)
    else
      var (q', reply) := Body(Marked(q, c, now), c, now);
      (if IsPublic(c) && !reply.Threw? then Schedule(q') else q', reply)
  }

  datatype Event = Event(call: Call, now: int)

  ghost function Run(q: Quota, events: seq<Event>): Quota
    decreases |events|
  {
    if events == [] then q else Run(Do(q, events[0].call, events[0].now).0, events[1..])
  }
}
