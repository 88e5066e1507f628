/** What every run of the coordinator keeps: the part ledger, the ceilings, the
    life cycle of a reservation and the conservation of charged bytes. */
module QuotaInvariants {
  import opened Sums
  import opened QuotaModel

  /** The registered parts are exactly 1..N and add up to the reservation. */
  ghost predicate Full(q: Quota, k: Key)
    requires k in q.rows
  {
    (exists n :: IsOneTo(PartsOf(q, k).Keys, n)) && Sum(PartsOf(q, k)) == q.rows[k].bytes
  }

  predicate WasClaimed(r: Row) {
    r.phase.Completing? || r.phase.CompletionCleanup? || (r.phase.Active? && r.op > 0)
  }

  ghost predicate RowOk(q: Quota, k: Key)
    requires k in q.rows
  {
    var r := q.rows[k];
    && 1 <= r.bytes <= STORAGE_BUDGET
    && (forall n :: n in PartsOf(q, k) ==> 1 <= n <= MAX_PARTS && 1 <= PartsOf(q, k)[n] <= MAX_PART)
    && Sum(PartsOf(q, k)) <= r.bytes
    && (WasClaimed(r) ==> Full(q, k) && r.op > 0)
  }

  ghost predicate ActorOk(q: Quota, a: string) {
    && |RowBytesOf(q.rows, a)| <= MAX_ACTOR_UPLOADS
    && |LedgerBytesOf(q.ledger, a)| + |RowBytesOf(q.rows, a)| <= MAX_ACTOR_OBJECTS
    && Sum(LedgerBytesOf(q.ledger, a)) + Sum(RowBytesOf(q.rows, a)) <= ACTOR_BUDGET
  }

  /** The part ledger: parts only for live rows, within the reservation. */
  ghost predicate PartsOk(q: Quota) {
    && q.parts.Keys <= q.rows.Keys
    && forall k :: k in q.rows ==> RowOk(q, k)
  }

  ghost predicate Ceilings(q: Quota) {
    && |q.rows| <= MAX_GLOBAL_UPLOADS
    && forall a :: ActorOk(q, a)
  }

  ghost predicate QInv(q: Quota) { PartsOk(q) && Ceilings(q) }

  /** The bytes charged against the storage budget. */
  ghost function Charged(q: Quota): nat { q.completedBytes + Sum(RowBytes(q.rows)) }

  // ---------------------------------------------------------------------------
  // The five effects a call can have

  /** The two cleanup phases are never left except by the row leaving. */
  predicate PhaseStep(a: Phase, b: Phase) { InCleanup(a) ==> b == a }

  predicate SameOwner(a: Row, b: Row) {
    && a.uploadId == b.uploadId && a.token == b.token && a.actor == b.actor && a.bytes == b.bytes
    && a.op <= b.op
  }

  /** Parts are only ever added, and never to a claimed upload. */
  ghost predicate PartsGrow(q: Quota, q': Quota, k: Key)
    requires k in q.rows
  {
    && (forall n :: n in PartsOf(q, k) ==> n in PartsOf(q', k) && PartsOf(q', k)[n] == PartsOf(q, k)[n])
    && (Full(q, k) ==> PartsOf(q', k) == PartsOf(q, k))
  }

  ghost predicate SameCounters(q: Quota, q': Quota) {
    q'.ledger == q.ledger && q'.completedBytes == q.completedBytes
    && q'.completedObjects == q.completedObjects && q'.baseline == q.baseline
  }

  /** Every row of `ks` lives on with its owner, size and parts. */
  ghost predicate RowsLive(q: Quota, q': Quota, ks: set<Key>)
    requires ks <= q.rows.Keys && ks <= q'.rows.Keys
  {
    forall k :: k in ks ==>
      && SameOwner(q.rows[k], q'.rows[k])
      && PhaseStep(q.rows[k].phase, q'.rows[k].phase)
      && PartsGrow(q, q', k)
  }

  ghost predicate Kept(q: Quota, q': Quota) {
    && q'.rows.Keys == q.rows.Keys
    && RowsLive(q, q', q.rows.Keys)
    && SameCounters(q, q')
    && q.mutation <= q'.mutation
  }

  /** Exactly the row of `k` leaves, with its parts, and the scan is invalidated. */
  ghost predicate Removed(q: Quota, q': Quota, k: Key) {
    && k in q.rows
    && q'.rows == q.rows - {k} && q'.parts == q.parts - {k}
    && SameCounters(q, q')
    && q.mutation < q'.mutation
  }

  ghost predicate Promoted(q: Quota, q': Quota, k: Key) {
    && k in q.rows && k !in q.ledger
    && (q.rows[k].phase.Completing? || q.rows[k].phase.CompletionCleanup?)
    && q'.rows == q.rows - {k} && q'.parts == q.parts - {k}
    && k in q'.ledger && q'.ledger - {k} == q.ledger
    && q'.ledger[k].actor == q.rows[k].actor
    && q'.ledger[k].bytes == q.rows[k].bytes
    && q'.ledger[k].uploadId == q.rows[k].uploadId
    && q'.ledger[k].token == q.rows[k].token
    && q'.ledger[k].op == q.rows[k].op
    && q'.completedBytes == q.completedBytes + q.rows[k].bytes
    && q'.completedObjects == q.completedObjects + 1
    && q'.baseline == q.baseline
    && q.mutation < q'.mutation
  }

  ghost predicate Added(q: Quota, q': Quota, k: Key, actor: string, size: int) {
    && k !in q.rows
    && 1 <= size <= STORAGE_BUDGET
    && GlobalRoom(q, size) && ActorRoom(q, actor, size)
    && q'.rows.Keys == q.rows.Keys + {k}
    && (forall j :: j in q.rows ==> q'.rows[j] == q.rows[j])
    && q'.rows[k].bytes == size && q'.rows[k].actor == actor && q'.rows[k].phase.Active? && q'.rows[k].op == 0
    && q'.parts == q.parts
    && SameCounters(q, q')
    && q.baseline
    && q'.mutation == q.mutation
  }

  /** An applied scan replaces the counters and may drop verified-gone receipts. */
  ghost predicate Rescanned(q: Quota, q': Quota) {
    && q'.rows == q.rows && q'.parts == q.parts
    && q'.ledger.Keys <= q.ledger.Keys
    && (forall j :: j in q'.ledger ==> q'.ledger[j] == q.ledger[j])
    && q'.mutation == q.mutation
  }

  // ---------------------------------------------------------------------------
  // The internal sections

  lemma KeptReflexive(q: Quota)
    ensures Kept(q, q)
  {}

  lemma KeptTransitive(a: Quota, b: Quota, c: Quota)
    requires Kept(a, b) && Kept(b, c)
    ensures Kept(a, c)
  {
    forall k | k in a.rows
      ensures SameOwner(a.rows[k], c.rows[k]) && PartsGrow(a, c, k)
    {
      assert SameOwner(a.rows[k], b.rows[k]) && SameOwner(b.rows[k], c.rows[k]);
      assert PartsGrow(a, b, k) && PartsGrow(b, c, k);
    }
  }

  lemma MarkExpiredKeeps(q: Quota, now: int)
    ensures Kept(q, MarkExpired(q, now)) && MarkExpired(q, now).parts == q.parts
    ensures PartsOk(q) ==> PartsOk(MarkExpired(q, now))
  {
    var q' := MarkExpired(q, now);
    forall k | k in q.rows
      ensures SameOwner(q.rows[k], q'.rows[k]) && PartsOf(q', k) == PartsOf(q, k)
      ensures WasClaimed(q'.rows[k]) ==> WasClaimed(q.rows[k])
      ensures RowOk(q, k) ==> RowOk(q', k)
    {
      if AnyDue(q, now) { assert q'.rows[k] == Expire(q.rows[k], now); }
    }
  }

  /** Rewriting one row in place, its owner unchanged. */
  lemma SetRowKeeps(q: Quota, q': Quota, k: Key, r: Row)
    requires k in q.rows && q'.rows == q.rows[k := r] && q'.parts == q.parts
    requires SameCounters(q, q') && q.mutation <= q'.mutation
    requires SameOwner(q.rows[k], r) && PhaseStep(q.rows[k].phase, r.phase)
    requires PartsOk(q) && (WasClaimed(r) ==> Full(q, k) && r.op > 0)
    ensures Kept(q, q') && PartsOk(q')
  {
    forall j | j in q'.rows
      ensures SameOwner(q.rows[j], q'.rows[j]) && PhaseStep(q.rows[j].phase, q'.rows[j].phase)
      ensures PartsOf(q', j) == PartsOf(q, j)
      ensures RowOk(q', j)
    {
      assert RowOk(q, j);
    }
  }

  lemma DropRowKeeps(q: Quota, q': Quota, k: Key)
    requires k in q.rows && q'.rows == q.rows - {k} && q'.parts == q.parts - {k}
    requires PartsOk(q)
    ensures PartsOk(q')
  {
    forall j | j in q'.rows ensures RowOk(q', j) {
      assert RowOk(q, j) && PartsOf(q', j) == PartsOf(q, j);
    }
  }

  // ---------------------------------------------------------------------------
  // Each operation, on the part ledger

  lemma RowFramed(q: Quota, q': Quota, j: Key)
    requires j in q.rows && j in q'.rows && RowOk(q, j)
    requires q'.rows[j] == q.rows[j] && PartsOf(q', j) == PartsOf(q, j)
    ensures RowOk(q', j) && PartsGrow(q, q', j)
  {}

  /** Registering one more part of an upload whose parts are not complete. */
  lemma AddPart(q: Quota, q': Quota, k: Key, n: int, size: nat, at: int)
    requires k in q.rows && k in q'.rows && RowOk(q, k)
    requires q'.rows[k] == q.rows[k].(expiresAt := at)
    requires n !in PartsOf(q, k) && PartsOf(q', k) == PartsOf(q, k)[n := size]
    requires q.rows[k].phase.Active? && Sum(PartsOf(q, k)) + size <= q.rows[k].bytes
    requires 1 <= n <= MAX_PARTS && 1 <= size <= MAX_PART
    ensures RowOk(q', k) && PartsGrow(q, q', k)
  {
    SumPut(PartsOf(q, k), n, size);
    assert !Full(q, k);
  }

  lemma ReservePartKeeps(q: Quota, k: Key, u: string, t: string, n: int, size: nat, now: int)
    requires PartsOk(q) && 1 <= n <= MAX_PARTS && 1 <= size <= MAX_PART
    ensures var q' := DoReservePart(q, k, u, t, n, size, now).0; Kept(q, q') && PartsOk(q')
  {
    hide Sum, RowOk, Full, PartsGrow;
    KeptReflexive(q);
    var (q', reply) := DoReservePart(q, k, u, t, n, size, now);
    if reply.Accepted? {
      forall j | j in q.rows
        ensures SameOwner(q.rows[j], q'.rows[j]) && PhaseStep(q.rows[j].phase, q'.rows[j].phase)
        ensures PartsGrow(q, q', j) && RowOk(q', j)
      {
        if j == k { AddPart(q, q', k, n, size, now + RESERVATION_TTL_MS); } else { RowFramed(q, q', j); }
      }
    }
  }

  lemma ClaimCompleteKeeps(q: Quota, k: Key, u: string, t: string, nums: seq<int>, now: int)
    requires PartsOk(q)
    ensures var q' := DoClaimComplete(q, k, u, t, nums, now).0; Kept(q, q') && PartsOk(q')
  {
    var (q', reply) := DoClaimComplete(q, k, u, t, nums, now);
    if reply.Claimed? { SetRowKeeps(q, q', k, q'.rows[k]); }
  }

  lemma ClaimAbortKeeps(q: Quota, k: Key, u: string, t: string, now: int)
    requires PartsOk(q)
    ensures var q' := DoClaimAbort(q, k, u, t, now).0; Kept(q, q') && PartsOk(q')
  {
    var (q', reply) := DoClaimAbort(q, k, u, t, now);
    if reply.Accepted? { SetRowKeeps(q, q', k, q'.rows[k]); }
  }

  lemma RestoreKeeps(q: Quota, k: Key, u: string, t: string, o: int, now: int)
    requires PartsOk(q)
    ensures var q' := DoRestoreActive(q, k, u, t, o, now).0; Kept(q, q') && PartsOk(q')
    ensures var q' := DoDeferCompletion(q, k, u, t, o, now).0; Kept(q, q') && PartsOk(q')
  {
    if ClaimedBy(q, k, u, t, o) {
      assert RowOk(q, k);
      var a := DoRestoreActive(q, k, u, t, o, now).0;
      var b := DoDeferCompletion(q, k, u, t, o, now).0;
      SetRowKeeps(q, a, k, a.rows[k]);
      SetRowKeeps(q, b, k, b.rows[k]);
    }
  }

  lemma DeferAbortKeeps(q: Quota, k: Key, u: string, t: string, now: int)
    requires PartsOk(q)
    ensures var q' := DoDeferAbort(q, k, u, t, now).0; Kept(q, q') && PartsOk(q')
  {
    var (q', reply) := DoDeferAbort(q, k, u, t, now);
    if reply.Accepted? { SetRowKeeps(q, q', k, q'.rows[k]); }
  }

  lemma RetryKeeps(q: Quota, k: Key, row: Row, now: int)
    requires PartsOk(q)
    ensures var q' := DoRetryCleanup(q, k, row, now).0; Kept(q, q') && PartsOk(q')
  {
    var (q', reply) := DoRetryCleanup(q, k, row, now);
    if reply.Accepted? {
      assert RowOk(q, k);
      SetRowKeeps(q, q', k, q'.rows[k]);
    }
  }

  lemma AddRowOk(q: Quota, q': Quota, k: Key, r: Row)
    requires PartsOk(q) && k !in q.rows && q'.rows == q.rows[k := r] && q'.parts == q.parts
    requires 1 <= r.bytes <= STORAGE_BUDGET && r.phase.Active? && r.op == 0
    ensures PartsOk(q')
  {
    forall j | j in q'.rows ensures RowOk(q', j) {
      if j != k { RowFramed(q, q', j); } else { assert PartsOf(q', j) == map[]; }
    }
  }

  lemma ReserveAdds(q: Quota, k: Key, u: string, t: string, a: string, size: nat, asOf: int)
    requires PartsOk(q) && 1 <= size <= STORAGE_BUDGET
    ensures DoReserve(q, k, u, t, a, size, asOf).1.Reserved? ==> Added(q, DoReserve(q, k, u, t, a, size, asOf).0, k, a, size)
  {
    hide RowOk, PartsOk, Sum, GlobalRoom, ActorRoom, Unsettled;
  }

  lemma ReserveParts(q: Quota, k: Key, u: string, t: string, a: string, size: nat, asOf: int)
    requires PartsOk(q) && 1 <= size <= STORAGE_BUDGET
    ensures PartsOk(DoReserve(q, k, u, t, a, size, asOf).0)
  {
    hide GlobalRoom, ActorRoom, Unsettled, Sum;
    var (q', reply) := DoReserve(q, k, u, t, a, size, asOf);
    if reply.Reserved? { AddRowOk(q, q', k, q'.rows[k]); }
  }

  lemma PromoteMoves(q: Quota, k: Key, size: nat, now: int)
    requires PartsOk(q) && k in q.rows && Promotable(q, k, size)
    requires q.rows[k].phase.Completing? || q.rows[k].phase.CompletionCleanup?
    ensures Promoted(q, Promote(q, k, size, now), k) && PartsOk(Promote(q, k, size, now))
  {
    assert Promote(q, k, size, now).ledger - {k} == q.ledger;
    DropRowKeeps(q, Promote(q, k, size, now), k);
  }

  // ---------------------------------------------------------------------------
  // A whole call

  /** What a call did, read off its kind and its reply. */
  ghost predicate Effect(q: Quota, c: Call, q': Quota, reply: Reply) {
    match c
    case Reserve(k, _, _, a, n, _) => if reply.Reserved? then Added(q, q', k, a, n) else Kept(q, q')
    case Release(k, _, _) => if reply.Accepted? then Removed(q, q', k) else Kept(q, q')
    case FinishCleanup(k, _) => if reply.Accepted? then Removed(q, q', k) else Kept(q, q')
    case Commit(k, u, _, _, _) => if reply.Accepted? && Has(q, k, u) then Promoted(q, q', k) else Kept(q, q')
    case PromoteRecovered(k, _, _) => if reply.Accepted? then Promoted(q, q', k) else Kept(q, q')
    case ScanApply(_, _, _, _, _, _, _) => if reply.Accepted? then Rescanned(q, q') else Kept(q, q')
    case _ => Kept(q, q')
  }

  /** Neither the effects nor the part ledger look at the alarm. */
  lemma AlarmIrrelevant(q: Quota, x: Quota, y: Quota)
    requires y == x.(alarm := y.alarm, handlers := y.handlers)
    ensures Kept(q, x) ==> Kept(q, y)
    ensures PartsOk(x) ==> PartsOk(y)
  {
    if Kept(q, x) {
      assert forall k :: PartsOf(y, k) == PartsOf(x, k);
    }
    if PartsOk(x) {
      forall k | k in y.rows ensures RowOk(y, k) { assert RowOk(x, k) && PartsOf(y, k) == PartsOf(x, k); }
    }
  }

  /** The transactions whose only effect is to rewrite rows in place. */
  lemma QuietBody(q: Quota, c: Call, now: int)
    requires PartsOk(q) && ValidCall(c)
    requires !c.Reserve? && !c.Release? && !c.FinishCleanup? && !c.Commit? && !c.PromoteRecovered? && !c.ScanApply?
    ensures Kept(q, Body(q, c, now).0) && PartsOk(Body(q, c, now).0)
  {
    hide PartsOk, Kept, Sum, DoReservePart, DoClaimComplete, DoClaimAbort, DoRestoreActive, DoDeferAbort,
         DoDeferCompletion, DoRetryCleanup;
    var q' := Body(q, c, now).0;
    match c
    case ReservePart(k, u, t, n, size) => ReservePartKeeps(q, k, u, t, n, size, now);
    case ClaimComplete(k, u, t, nums) => ClaimCompleteKeeps(q, k, u, t, nums, now);
    case ClaimAbort(k, u, t) => ClaimAbortKeeps(q, k, u, t, now);
    case RestoreActive(k, u, t, o) => RestoreKeeps(q, k, u, t, o, now);
    case DeferAbort(k, u, t) => DeferAbortKeeps(q, k, u, t, now);
    case DeferCompletion(k, u, t, o) => RestoreKeeps(q, k, u, t, o, now);
    case RetryCleanup(k, r) => RetryKeeps(q, k, r, now);
    case ScanBegin(s) => ScanFlagsKeep(q, q');
    case ScanFail(s) => ScanFlagsKeep(q, q');
    case _ => KeptReflexive(q); AlarmIrrelevant(q, q, q');
  }

  lemma ScanFlagsKeep(q: Quota, q': Quota)
    requires PartsOk(q)
    requires q' == q.(scanToken := q'.scanToken, lockUntil := q'.lockUntil, reconciledAt := q'.reconciledAt)
    ensures Kept(q, q') && PartsOk(q')
  {
    forall k | k in q.rows ensures RowOk(q', k) && PartsGrow(q, q', k) { RowFramed(q, q', k); }
  }

  lemma RemovalBody(q: Quota, k: Key)
    requires PartsOk(q) && k in q.rows
    ensures Removed(q, DropRow(q, k), k) && PartsOk(DropRow(q, k))
  {
    DropRowKeeps(q, DropRow(q, k), k);
  }

  lemma ScanApplyBody(q: Quota, c: Call, now: int)
    requires PartsOk(q) && c.ScanApply?
    ensures var (q', reply) := Body(q, c, now); PartsOk(q') && Effect(q, c, q', reply)
  {
    var (q', reply) := Body(q, c, now);
    if reply.Accepted? {
      forall k | k in q'.rows ensures RowOk(q', k) { RowFramed(q, q', k); }
    } else {
      ScanFlagsKeep(q, q');
    }
  }

  lemma BodyEffect(q: Quota, c: Call, now: int)
    requires PartsOk(q) && ValidCall(c)
    ensures var (q', reply) := Body(q, c, now); PartsOk(q') && Effect(q, c, q', reply)
  {
    hide PartsOk, Kept, Removed, Promoted, Added, Rescanned, Sum, DoReserve, DropRow, Promote, Promotable, Full;
    KeptReflexive(q);
    var (q', reply) := Body(q, c, now);
    match c
    case Reserve(k, u, t, a, n, asOf) =>
      ReserveAdds(q, k, u, t, a, n, asOf);
      ReserveParts(q, k, u, t, a, n, asOf);
      RefusedReserve(q, k, u, t, a, n, asOf);
    case Release(k, u, t) => if k in q.rows { RemovalBody(q, k); }
    case FinishCleanup(k, _) => if k in q.rows { RemovalBody(q, k); }
    case Commit(k, u, t, o, size) =>
      if reply.Accepted? && Has(q, k, u) { PromoteMoves(q, k, size, now); }
    case PromoteRecovered(k, r, size) =>
      if reply.Accepted? { PromoteMoves(q, k, size, now); }
    case ScanApply(_, _, _, _, _, _, _) => ScanApplyBody(q, c, now);
    case _ => QuietBody(q, c, now);
  }

  lemma RefusedReserve(q: Quota, k: Key, u: string, t: string, a: string, size: nat, asOf: int)
    ensures var (q', reply) := DoReserve(q, k, u, t, a, size, asOf); !reply.Reserved? ==> q' == q
  {}

  lemma EffectIgnoresAlarm(q: Quota, c: Call, x: Quota, y: Quota, reply: Reply)
    requires y == x.(alarm := y.alarm, handlers := y.handlers)
    requires Effect(q, c, x, reply)
    ensures Effect(q, c, y, reply)
  {
    hide Kept;
    AlarmIrrelevant(q, x, y);
  }

  /** The effect before the alarm is rescheduled. */
  lemma MarkedBodyEffect(q: Quota, c: Call, now: int)
    requires PartsOk(q) && ValidCall(c)
    ensures var (b, reply) := Body(Marked(q, c, now), c, now); PartsOk(b) && Effect(q, c, b, reply)
  {
    hide PartsOk, Kept, Body, Removed, Promoted, Added, Rescanned, MarkExpired;
    var m := Marked(q, c, now);
    MarkExpiredKeeps(q, now);
    BodyEffect(m, c, now);
    if MarksExpired(c) { KeptTransitive(q, m, Body(m, c, now).0); }
  }

  /** Every call keeps the part ledger and has exactly one of the five effects. */
  lemma DoEffect(q: Quota, c: Call, now: int)
    requires PartsOk(q)
    ensures var (q', reply) := Do(q, c, now); PartsOk(q') && Effect(q, c, q', reply)
  {
    hide PartsOk, Kept, Body, NextExpiry, Marked, Removed, Promoted, Added, Rescanned;
    if ValidCall(c) {
      MarkedBodyEffect(q, c, now);
      var (b, reply) := Body(Marked(q, c, now), c, now);
      EffectIgnoresAlarm(q, c, b, Schedule(b), reply);
      AlarmIrrelevant(q, b, Schedule(b));
    } else {
      KeptReflexive(q);
    }
  }

  // ---------------------------------------------------------------------------
  // Ceilings and conservation, effect by effect

  lemma KeptCharges(q: Quota, q': Quota)
    requires Kept(q, q')
    ensures Charged(q') == Charged(q) && (Ceilings(q) ==> Ceilings(q'))
  {
    hide PartsGrow, Sum;
    assert RowBytes(q'.rows) == RowBytes(q.rows);
    if Ceilings(q) {
      assert q'.rows.Keys == q.rows.Keys;
      forall a ensures ActorOk(q', a) {
        assert ActorOk(q, a);
        assert RowBytesOf(q'.rows, a) == RowBytesOf(q.rows, a);
      }
    }
  }

  lemma RowLeaves(rows: map<Key, Row>, k: Key, a: string)
    requires k in rows
    ensures RowBytes(rows - {k}) == RowBytes(rows) - {k}
    ensures RowBytesOf(rows - {k}, a) == RowBytesOf(rows, a) - {k}
    ensures Sum(RowBytes(rows - {k})) == Sum(RowBytes(rows)) - rows[k].bytes
    ensures |rows - {k}| == |rows| - 1
    ensures rows[k].actor == a ==>
      && Sum(RowBytesOf(rows - {k}, a)) == Sum(RowBytesOf(rows, a)) - rows[k].bytes
      && |RowBytesOf(rows - {k}, a)| == |RowBytesOf(rows, a)| - 1
    ensures rows[k].actor != a ==> RowBytesOf(rows - {k}, a) == RowBytesOf(rows, a)
  {
    hide Sum;
    assert RowBytes(rows - {k}) == RowBytes(rows) - {k};
    assert RowBytesOf(rows - {k}, a) == RowBytesOf(rows, a) - {k};
    SumDrop(RowBytes(rows), k);
    SumDrop(RowBytesOf(rows, a), k);
    assert (rows - {k}).Keys == rows.Keys - {k};
  }

  lemma RemovedActor(q: Quota, q': Quota, k: Key, a: string)
    requires Removed(q, q', k) && ActorOk(q, a)
    ensures ActorOk(q', a)
  {
    hide Sum, RowBytesOf, LedgerBytesOf, RowBytes;
    RowLeaves(q.rows, k, a);
  }

  lemma RemovedCharges(q: Quota, q': Quota, k: Key)
    requires Removed(q, q', k)
    ensures k in q.rows && Charged(q') == Charged(q) - q.rows[k].bytes && (Ceilings(q) ==> Ceilings(q'))
  {
    hide Sum, ActorOk, RowBytesOf, LedgerBytesOf, RowBytes;
    RowLeaves(q.rows, k, "");
    if Ceilings(q) {
      forall a ensures ActorOk(q', a) {
        assert ActorOk(q, a);
        RemovedActor(q, q', k, a);
      }
    }
  }

  lemma LedgerWithout(l: map<Key, Receipt>, k: Key, a: string)
    ensures LedgerBytesOf(l - {k}, a) == LedgerBytesOf(l, a) - {k}
  {}

  lemma LedgerGains(l: map<Key, Receipt>, l': map<Key, Receipt>, k: Key, a: string)
    requires k !in l && k in l' && l' - {k} == l
    ensures l'[k].actor == a ==>
      && Sum(LedgerBytesOf(l', a)) == Sum(LedgerBytesOf(l, a)) + l'[k].bytes
      && |LedgerBytesOf(l', a)| == |LedgerBytesOf(l, a)| + 1
    ensures l'[k].actor != a ==> LedgerBytesOf(l', a) == LedgerBytesOf(l, a)
  {
    hide Sum;
    LedgerWithout(l', k, a);
    SumDrop(LedgerBytesOf(l', a), k);
  }

  lemma PromotedActor(q: Quota, q': Quota, k: Key, a: string)
    requires Promoted(q, q', k) && ActorOk(q, a)
    ensures ActorOk(q', a)
  {
    hide Sum, RowBytesOf, LedgerBytesOf, RowBytes;
    RowLeaves(q.rows, k, a);
    LedgerGains(q.ledger, q'.ledger, k, a);
  }

  /** Promotion moves a charge; it neither creates nor loses one. */
  lemma PromotedCharges(q: Quota, q': Quota, k: Key)
    requires Promoted(q, q', k)
    ensures Charged(q') == Charged(q) && (Ceilings(q) ==> Ceilings(q'))
  {
    hide Sum, ActorOk, RowBytesOf, LedgerBytesOf, RowBytes;
    RowLeaves(q.rows, k, "");
    if Ceilings(q) {
      forall a ensures ActorOk(q', a) {
        assert ActorOk(q, a);
        PromotedActor(q, q', k, a);
      }
    }
  }

  lemma RowArrives(rows: map<Key, Row>, rows': map<Key, Row>, k: Key, a: string)
    requires k !in rows && rows'.Keys == rows.Keys + {k} && forall j :: j in rows ==> rows'[j] == rows[j]
    ensures Sum(RowBytes(rows')) == Sum(RowBytes(rows)) + rows'[k].bytes && |rows'| == |rows| + 1
    ensures rows'[k].actor == a ==>
      && Sum(RowBytesOf(rows', a)) == Sum(RowBytesOf(rows, a)) + rows'[k].bytes
      && |RowBytesOf(rows', a)| == |RowBytesOf(rows, a)| + 1
    ensures rows'[k].actor != a ==> RowBytesOf(rows', a) == RowBytesOf(rows, a)
  {
    hide Sum;
    assert rows' - {k} == rows;
    RowLeaves(rows', k, a);
  }

  lemma AddedCharges(q: Quota, q': Quota, k: Key, actor: string, size: nat)
    requires Added(q, q', k, actor, size)
    ensures Charged(q') == Charged(q) + size && (Ceilings(q) ==> Ceilings(q'))
  {
    hide Sum, RowBytesOf, LedgerBytesOf, RowBytes;
    RowArrives(q.rows, q'.rows, k, actor);
    if Ceilings(q) {
      forall a ensures ActorOk(q', a) {
        assert ActorOk(q, a);
        RowArrives(q.rows, q'.rows, k, a);
      }
    }
  }

  lemma RescannedCeilings(q: Quota, q': Quota)
    requires Rescanned(q, q') && Ceilings(q)
    ensures Ceilings(q')
  {
    hide Sum;
    forall a ensures ActorOk(q', a) {
      assert ActorOk(q, a);
      SumBelow(LedgerBytesOf(q'.ledger, a), LedgerBytesOf(q.ledger, a));
    }
  }

  /** Conservation: only `reserve` and an applied scan can raise the charge;
      a commit that lands and a recovered promotion keep it exactly. */
  lemma ChargeConserved(q: Quota, c: Call, now: int)
    requires PartsOk(q)
    ensures var (q', reply) := Do(q, c, now);
      && (!reply.Reserved? && !c.ScanApply? ==> Charged(q') <= Charged(q))
      && (c.Commit? || c.PromoteRecovered? ==> Charged(q') == Charged(q))
      && (reply.Reserved? ==> c.Reserve? && Charged(q') == Charged(q) + c.size && Charged(q') <= STORAGE_BUDGET)
  {
    hide Do, Sum, PartsOk, Kept, Removed, Promoted, Rescanned;
    var (q', reply) := Do(q, c, now);
    DoEffect(q, c, now);
    OnlyReserveReserves(q, c, now);
    if Kept(q, q') { KeptCharges(q, q'); }
    match c
    case Reserve(k, _, _, a, n, _) => if reply.Reserved? { AddedCharges(q, q', k, a, n); }
    case Release(k, _, _) => if reply.Accepted? { RemovedCharges(q, q', k); }
    case FinishCleanup(k, _) => if reply.Accepted? { RemovedCharges(q, q', k); }
    case Commit(k, u, _, _, _) => if reply.Accepted? && Has(q, k, u) { PromotedCharges(q, q', k); }
    case PromoteRecovered(k, _, _) => if reply.Accepted? { PromotedCharges(q, q', k); }
    case _ =>
  }

  lemma OnlyReserveReserves(q: Quota, c: Call, now: int)
    ensures Do(q, c, now).1.Reserved? ==> c.Reserve?
  {}

  /** Every call keeps the part ledger and every ceiling. */
  lemma DoKeepsInvariant(q: Quota, c: Call, now: int)
    requires QInv(q)
    ensures QInv(Do(q, c, now).0)
  {
    hide Do, Sum, PartsOk, Ceilings, Kept, Removed, Promoted, Added, Rescanned;
    var (q', reply) := Do(q, c, now);
    DoEffect(q, c, now);
    if Kept(q, q') { KeptCharges(q, q'); }
    match c
    case Reserve(k, _, _, a, n, _) => if reply.Reserved? { SizeOfAdded(q, q', k, a, n); AddedCharges(q, q', k, a, n); }
    case Release(k, _, _) => if reply.Accepted? { RemovedCharges(q, q', k); }
    case FinishCleanup(k, _) => if reply.Accepted? { RemovedCharges(q, q', k); }
    case Commit(k, u, _, _, _) => if reply.Accepted? && Has(q, k, u) { PromotedCharges(q, q', k); }
    case PromoteRecovered(k, _, _) => if reply.Accepted? { PromotedCharges(q, q', k); }
    case ScanApply(_, _, _, _, _, _, _) => if reply.Accepted? { RescannedCeilings(q, q'); }
    case _ =>
  }

  lemma SizeOfAdded(q: Quota, q': Quota, k: Key, a: string, n: int)
    requires Added(q, q', k, a, n)
    ensures n >= 1
  {}

  lemma EmptyQuotaOk()
    ensures QInv(EMPTY_QUOTA)
  {
    forall a ensures ActorOk(EMPTY_QUOTA, a) {
      assert RowBytesOf(EMPTY_QUOTA.rows, a) == map[];
      assert LedgerBytesOf(EMPTY_QUOTA.ledger, a) == map[];
    }
  }

  lemma {:induction false} RunKeeps(q: Quota, events: seq<Event>)
    requires QInv(q)
    ensures QInv(Run(q, events))
    decreases |events|
  {
    hide QInv, Do;
    if events != [] {
      DoKeepsInvariant(q, events[0].call, events[0].now);
      RunKeeps(Do(q, events[0].call, events[0].now).0, events[1..]);
    }
  }

  /** In every run from the fresh schema, whatever calls arrive in whatever order
      and at whatever times: the ceilings per actor and in all, and parts that
      never outgrow their reservation. */
  lemma EveryRunWithinCeilings(events: seq<Event>)
    ensures QInv(Run(EMPTY_QUOTA, events))
  {
    hide QInv, Run;
    EmptyQuotaOk();
    RunKeeps(EMPTY_QUOTA, events);
  }
}
