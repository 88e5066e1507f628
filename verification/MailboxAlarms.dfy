/** The mailbox's one alarm, its coalesced wake-ups, and why no visible message is
    left without either. */
module MailboxAlarms {
  import opened Sums
  import opened MailboxModel
  import opened MailboxProofs
  import Base64
  import Budgets

  // ---------------------------------------------------------------------------
  // The single alarm

  /** `a` is at or before every outstanding deadline. */
  ghost predicate Covers(r: Room, a: Option<Deadline>) {
    && (r.pushDue.Some? ==> a.Some? && a.value <= r.pushDue.value)
    && (forall id :: id in r.q ==> a.Some? && a.value <= r.q[id].ts + 2_592_000_000)
  }

  /** ... and is one of them. */
  ghost predicate IsDeadline(r: Room, a: Option<Deadline>) {
    a.Some? ==> a == r.pushDue || exists id :: id in r.q && a.value == r.q[id].ts + 2_592_000_000
  }

  /** Every clock value and deadline is a safe integer, so the checks in
      `pushDueAt`, `oldestExpiryAt` and `earliestTimestamp` discard none. */
  lemma {:induction false} EarliestOfTwo(a: Option<Deadline>, b: Option<Deadline>)
    ensures EarliestTimestamp([a, b]) ==
      if a.None? then b else if b.None? || a.value <= b.value then a else b
  {
    assert [a, b][..1] == [a] && [a][..0] == [];
    assert EarliestTimestamp([a]) == a;
  }

  lemma {:induction false} NextAlarmCovers(r: Room)
    ensures Covers(r, NextAlarm(r)) && IsDeadline(r, NextAlarm(r))
  {
    EarliestOfTwo(r.pushDue, ExpiryOf(Oldest(r.q)));
    hide EarliestTimestamp;
    if r.q != map[] {
      var k :| IsOldest(r.q, k) && Oldest(r.q).value == r.q[k].ts;
    }
  }

  /** The alarm covers every deadline, or it has just gone off and its handler, which
      will set it again, is still waiting for push requests. */
  ghost predicate AlarmOk(r: Room) { (r.handlers > 0 && r.alarm.None?) || Covers(r, r.alarm) }

  lemma {:induction false} ScheduledOk(r: Room)
    ensures Covers(Schedule(r), Schedule(r).alarm)
  {
    hide NextAlarm;
    NextAlarmCovers(r);
  }

  /** Removing rows or the push deadline only removes deadlines. */
  lemma {:induction false} FewerDeadlines(r: Room, s: Room)
    requires AlarmOk(r) && Sub(s.q, r.q) && s.alarm == r.alarm && s.handlers == r.handlers
    requires s.pushDue == r.pushDue || s.pushDue == None
    ensures AlarmOk(s)
  {}

  lemma {:induction false} AlarmKeptBySend(r: Room, b64: string, silent: bool, deaf: set<Socket>, now: Time)
    requires AlarmOk(r)
    ensures AlarmOk(DoSend(r, b64, silent, deaf, now))
  {
    hide NextAlarm, AnyVisible, Admits, Base64.IsCanonicalBase64, AlarmOk, Covers;
    var s := ClearIfIdle(Sweep(r, now));
    if SendOutcome(r, b64, now).Sent? {
      var t := Insert(s, b64, silent, now);
      var live := t.owners * t.open - deaf != {};
      var h := if live then t.(handed := t.handed + {s.nextId}) else t;
      var f := if !live && !silent then Arm(h, now) else h;
      assert DoSend(r, b64, silent, deaf, now) == Schedule(f);
      ScheduledOk(f);
      CoversIsOk(Schedule(f));
    } else {
      FewerDeadlines(r, s);
    }
  }

  lemma {:induction false} CoversIsOk(r: Room)
    requires Covers(r, r.alarm)
    ensures AlarmOk(r)
  {}

  lemma {:induction false} ScheduledAlarmOk(r: Room)
    ensures AlarmOk(Schedule(r))
  {
    hide Covers, NextAlarm;
    ScheduledOk(r);
  }

  lemma {:induction false} AlarmIgnores(r: Room, s: Room)
    requires AlarmOk(r) && s.q == r.q && s.pushDue == r.pushDue && s.alarm == r.alarm && s.handlers == r.handlers
    ensures AlarmOk(s)
  {}

  lemma {:induction false} AlarmKeptByAlarm(r: Room, now: Time)
    ensures AlarmOk(DoAlarm(r, now))
  {
    hide Covers, NextAlarm, ClearIfIdle, Schedule, Wakes;
    var s := Sweep(r, now).(alarm := None);
    ScheduledAlarmOk(ClearIfIdle(s));
    ScheduledAlarmOk(ClearIfIdle(s.(pushDue := None)));
  }

  lemma {:induction false} AlarmKeptByEnd(r: Room)
    requires AlarmOk(r)
    ensures AlarmOk(DoAlarmEnds(r))
  {
    hide NextAlarm, AnyVisible;
    ScheduledOk(ClearIfIdle(r));
  }

  lemma {:induction false} AlarmKept(r: Room, e: Event, now: Time)
    requires AlarmOk(r)
    ensures AlarmOk(Do(r, e, now))
  {
    hide AlarmOk, Schedule, ClearIfIdle, Sweep, DoSend, DoAlarm, DoAlarmEnds, Drained, DrainedTo, IsSafeAckId;
    match e
    case Connect(ws) =>
      var t := ClearIfIdle(Sweep(r, now));
      ScheduledAlarmOk(t);
      AlarmIgnores(Schedule(t), Schedule(t).(open := r.open + {ws}));
    case Close(ws) => AlarmIgnores(r, r.(open := r.open - {ws}));
    case Auth(ws, valid, claimAllowed, authedOk, failsAt) =>
      var o := r.(claimed := r.claimed || claimAllowed, owners := r.owners + {ws});
      AlarmIgnores(r, o);
      var d := Sweep(o.(pushDue := None), now);
      ScheduledAlarmOk(ClearIfIdle(d.(q := Drained(d.q, failsAt), handed := d.handed + DrainedTo(d.q, failsAt))));
    case Send(b64, silent, deaf) => AlarmKeptBySend(r, b64, silent, deaf, now);
    case Ack(ws, id) => ScheduledAlarmOk(ClearIfIdle(r.(q := r.q - {id})));
    case AlarmRings => AlarmKeptByAlarm(r, now);
    case AlarmEnds => AlarmKeptByEnd(r);
    case Restart =>
      ScheduledAlarmOk(r.(handlers := 0));
      if r.alarm.Some? { RestartCovers(r); }
  }

  lemma {:induction false} RestartCovers(r: Room)
    requires AlarmOk(r) && r.alarm.Some?
    ensures AlarmOk(r.(handlers := 0))
  {}

  /** In every run the alarm is set at or before every outstanding deadline, the armed
      wake-up and the expiry of every queued row; the one gap is between an alarm and
      the next rescheduling, while its handler waits for push requests. */
  lemma {:induction false} AlarmBeforeEveryDeadline(steps: seq<Step>)
    ensures AlarmOk(Run(EMPTY_ROOM, steps))
  {
    hide Do;
    if steps != [] {
      var r, s := Run(EMPTY_ROOM, steps[..|steps| - 1]), steps[|steps| - 1];
      AlarmBeforeEveryDeadline(steps[..|steps| - 1]);
      AlarmKept(r, s.event, s.now);
      AlarmIgnores(Do(r, s.event, s.now), Do(r, s.event, s.now).(clock := s.now));
    }
  }

  // ---------------------------------------------------------------------------
  // The push deadline and the wake-ups

  ghost predicate Spaced(ns: seq<Time>, clock: Time) {
    && (forall i :: 0 < i < |ns| ==> ns[i - 1] + PUSH_COALESCE_MS <= ns[i])
    && (ns != [] ==> ns[|ns| - 1] <= clock)
  }

  /** An armed wake-up has a pending visible row, is at most the coalescing delay
      ahead, and keeps its distance from the last wake-up. */
  ghost predicate PushOk(r: Room, now: Time) {
    && Spaced(r.notices, now)
    && (r.pushDue.Some? ==>
         && AnyVisible(r.q)
         && r.pushDue.value <= now + PUSH_COALESCE_MS
         && (r.notices != [] ==> r.notices[|r.notices| - 1] + PUSH_COALESCE_MS <= r.pushDue.value))
  }

  /** Rows may go; the deadline is dropped when no visible row is left. */
  lemma {:induction false} ClearedOk(r: Room, s: Room, now: Time)
    requires PushOk(r, now)
    requires s.pushDue == r.pushDue || s.pushDue == None
    requires s.notices == r.notices
    ensures PushOk(ClearIfIdle(s), now)
  {
    hide AnyVisible;
  }

  lemma {:induction false} PushIgnores(r: Room, s: Room, now: Time, later: Time)
    requires PushOk(r, now) && s.q == r.q && s.pushDue == r.pushDue && s.notices == r.notices && now <= later
    ensures PushOk(s, later)
  {
    hide AnyVisible;
  }

  lemma {:induction false} ArmedOk(r: Room, b64: string, silent: bool, live: bool, now: Time)
    requires PushOk(r, now) && r.nextId !in r.q
    ensures PushOk(if !live && !silent then Arm(Insert(r, b64, silent, now), now) else Insert(r, b64, silent, now), now)
  {
    var t := Insert(r, b64, silent, now);
    if !silent {
      assert !t.q[r.nextId].silent;
    } else if r.pushDue.Some? {
      var id :| id in r.q && !r.q[id].silent;
      assert id in t.q && !t.q[id].silent;
    }
  }

  lemma {:induction false} PushKeptBySend(r: Room, b64: string, silent: bool, deaf: set<Socket>, now: Time)
    requires PushOk(r, now) && RowsOk(r)
    ensures PushOk(DoSend(r, b64, silent, deaf, now), now)
  {
    hide NextAlarm, Admits, Base64.IsCanonicalBase64, PushOk, AnyVisible, Admissible, ClearIfIdle;
    var s := ClearIfIdle(Sweep(r, now));
    ClearedOk(r, Sweep(r, now), now);
    assert s.q == Sweep(r, now).q && s.nextId == r.nextId by { ClearKeepsRows(Sweep(r, now)); }
    if SendOutcome(r, b64, now).Sent? {
      var live := s.owners * s.open - deaf != {};
      ArmedOk(s, b64, silent, live, now);
      PushIgnores(if !live && !silent then Arm(Insert(s, b64, silent, now), now) else Insert(s, b64, silent, now),
        DoSend(r, b64, silent, deaf, now), now, now);
    }
  }

  lemma {:induction false} ClearKeepsRows(r: Room)
    ensures ClearIfIdle(r) == r.(pushDue := ClearIfIdle(r).pushDue)
  {
    hide AnyVisible;
  }

  lemma {:induction false} ScheduleIgnored(r: Room, now: Time)
    requires PushOk(r, now)
    ensures PushOk(Schedule(r), now)
  {
    hide NextAlarm, AnyVisible;
  }

  lemma {:induction false} PushKeptByAlarm(r: Room, now: Time)
    requires PushOk(r, now)
    ensures PushOk(DoAlarm(r, now), now)
  {
    hide NextAlarm, AnyVisible, ClearIfIdle, Schedule, OwnerOnline, Visible;
    var s := Sweep(r, now).(alarm := None);
    ClearedOk(r, s, now);
    ClearedOk(r, s.(pushDue := None), now);
    ScheduleIgnored(ClearIfIdle(s), now);
    ScheduleIgnored(ClearIfIdle(s.(pushDue := None)), now);
    if Wakes(s, now) && r.notices != [] {
      assert r.notices[|r.notices| - 1] + PUSH_COALESCE_MS <= now;
    }
  }

  lemma {:induction false} PushKept(r: Room, e: Event, now: Time)
    requires PushOk(r, now) && RowsOk(r)
    ensures PushOk(Do(r, e, now), now)
  {
    hide PushOk, RowsOk, Schedule, ClearIfIdle, Sweep, DoSend, DoAlarm, Drained, DrainedTo, IsSafeAckId;
    match e
    case Connect(ws) =>
      if !(ws in r.open || ws in r.owners) {
        SweptCleared(r, r, now);
        PushIgnores(Schedule(ClearIfIdle(Sweep(r, now))), DoConnect(r, ws, now), now, now);
      }
    case Close(ws) => PushIgnores(r, r.(open := r.open - {ws}), now, now);
    case Auth(ws, valid, claimAllowed, authedOk, failsAt) =>
      var o := r.(claimed := r.claimed || claimAllowed, owners := r.owners + {ws});
      PushIgnores(r, o, now, now);
      var d := Sweep(o.(pushDue := None), now);
      SweepOnlyRows(o.(pushDue := None), now);
      ScheduledCleared(r, d.(q := Drained(d.q, failsAt), handed := d.handed + DrainedTo(d.q, failsAt)), now);
    case Send(b64, silent, deaf) => PushKeptBySend(r, b64, silent, deaf, now);
    case Ack(ws, id) => ScheduledCleared(r, r.(q := r.q - {id}), now);
    case AlarmRings => PushKeptByAlarm(r, now);
    case AlarmEnds =>
      if r.handlers > 0 {
        ScheduledCleared(r, r, now);
        PushIgnores(Schedule(ClearIfIdle(r)), DoAlarmEnds(r), now, now);
      }
    case Restart =>
      PushIgnores(r, r.(handlers := 0), now, now);
      ScheduleIgnored(r.(handlers := 0), now);
  }

  lemma {:induction false} SweepOnlyRows(r: Room, now: Time)
    ensures Sweep(r, now) == r.(q := Sweep(r, now).q)
    ensures Sub(Sweep(r, now).q, r.q)
  {}

  lemma {:induction false} ScheduledCleared(r: Room, s: Room, now: Time)
    requires PushOk(r, now) && (s.pushDue == r.pushDue || s.pushDue == None) && s.notices == r.notices
    ensures PushOk(Schedule(ClearIfIdle(s)), now)
  {
    hide PushOk, Schedule, ClearIfIdle;
    ClearedOk(r, s, now);
    ScheduleIgnored(ClearIfIdle(s), now);
  }

  lemma {:induction false} SweptCleared(r: Room, s: Room, now: Time)
    requires PushOk(r, now) && s.pushDue == r.pushDue && s.notices == r.notices
    ensures PushOk(Schedule(ClearIfIdle(Sweep(s, now))), now)
  {
    hide PushOk, Schedule, ClearIfIdle, Sweep;
    SweepOnlyRows(s, now);
    ScheduledCleared(r, Sweep(s, now), now);
  }

  lemma {:induction false} RunPushOk(steps: seq<Step>)
    ensures PushOk(Run(EMPTY_ROOM, steps), Run(EMPTY_ROOM, steps).clock)
  {
    hide Do, PushOk, RowsOk, CapsOk;
    if steps == [] {
      assert PushOk(EMPTY_ROOM, 0) by { EmptyPush(); }
    } else {
      var r, s := Run(EMPTY_ROOM, steps[..|steps| - 1]), steps[|steps| - 1];
      RunPushOk(steps[..|steps| - 1]);
      RunRowsOk(steps[..|steps| - 1]);
      if r.clock <= s.now {
        PushIgnores(r, r, r.clock, s.now);
        PushKept(r, s.event, s.now);
        PushIgnores(Do(r, s.event, s.now), Next(r, s), s.now, s.now);
      }
    }
  }

  lemma {:induction false} EmptyPush()
    ensures PushOk(EMPTY_ROOM, 0)
  {}

  /** In every run an armed wake-up has a visible row waiting for it. */
  lemma {:induction false} ArmedMeansPending(steps: seq<Step>)
    requires Run(EMPTY_ROOM, steps).pushDue.Some?
    ensures AnyVisible(Run(EMPTY_ROOM, steps).q)
  {
    hide Run, AnyVisible;
    RunPushOk(steps);
  }

  /** In every run any two wake-ups are at least three seconds apart. */
  lemma {:induction false} WakeUpsSpaced(steps: seq<Step>, i: nat, j: nat)
    requires i < j < |Run(EMPTY_ROOM, steps).notices|
    ensures (Run(EMPTY_ROOM, steps).notices[j] as int) - (Run(EMPTY_ROOM, steps).notices[i] as int) >= 3000
    decreases j
  {
    hide Run, AnyVisible;
    RunPushOk(steps);
    if i + 1 < j { WakeUpsSpaced(steps, i, j - 1); }
  }

  // ---------------------------------------------------------------------------
  // No visible row is forgotten

  /** The row was handed to an owner, or a wake-up was sent while it was queued, or
      one is due within three seconds of its arrival. */
  ghost predicate LookedAfter(r: Room, id: Id)
    requires id in r.q
  {
    || id in r.handed
    || id in r.woken
    || (r.pushDue.Some? && r.pushDue.value <= r.q[id].ts + 3000)
  }

  ghost predicate WakeOk(r: Room) {
    && (forall id :: id in r.q && !r.q[id].silent ==> LookedAfter(r, id))
    && (OwnerOnline(r) ==> forall id :: id in r.q ==> id in r.handed)
  }

  /** Every send of the step succeeds. */
  predicate Accepting(e: Event) {
    && (e.Send? ==> e.deaf == {})
    && (e.Auth? ==> e.authedOk && e.failsAt == None)
  }

  lemma {:induction false} WakeShrinks(r: Room, s: Room)
    requires WakeOk(r) && Sub(s.q, r.q)
    requires s.pushDue == r.pushDue || !AnyVisible(s.q)
    requires s.handed == r.handed && s.woken == r.woken && s.owners * s.open <= r.owners * r.open
    ensures WakeOk(s)
  {}

  lemma {:induction false} AllHanded(s: Room)
    requires forall id :: id in s.q ==> id in s.handed
    ensures WakeOk(s)
  {}

  lemma {:induction false} WakeCleared(r: Room, s: Room)
    requires WakeOk(r) && Sub(s.q, r.q) && s.pushDue == r.pushDue
    requires s.handed == r.handed && s.woken == r.woken && s.owners * s.open <= r.owners * r.open
    ensures WakeOk(Schedule(ClearIfIdle(s))) && WakeOk(ClearIfIdle(s))
  {
    hide NextAlarm, WakeOk, AnyVisible, OwnerOnline;
    WakeShrinks(r, ClearIfIdle(s));
    WakeShrinks(r, Schedule(ClearIfIdle(s)));
  }

  lemma {:induction false} WakeKeptByDeliver(s: Room, b64: string, silent: bool, now: Time)
    requires WakeOk(s) && PushOk(s, now) && s.nextId !in s.q
    ensures WakeOk(Deliver(s, b64, silent, {}, now))
  {
    hide NextAlarm, AnyVisible;
    assert s.owners * s.open - {} == s.owners * s.open;
  }

  lemma {:induction false} WakeKeptBySend(r: Room, b64: string, silent: bool, now: Time)
    requires WakeOk(r) && PushOk(r, now) && RowsOk(r)
    ensures WakeOk(DoSend(r, b64, silent, {}, now))
  {
    hide NextAlarm, Admits, Base64.IsCanonicalBase64, PushOk, WakeOk, AnyVisible, Admissible, ClearIfIdle, Deliver;
    var s := ClearIfIdle(Sweep(r, now));
    ClearedOk(r, Sweep(r, now), now);
    ClearKeepsRows(Sweep(r, now));
    WakeCleared(r, Sweep(r, now));
    if SendOutcome(r, b64, now).Sent? { WakeKeptByDeliver(s, b64, silent, now); }
  }

  lemma {:induction false} WakeKeptByDrain(r: Room, now: Time)
    requires RowsOk(r) && r.nextId <= MAX_SAFE + 1
    ensures WakeOk(Drain(r, None, now))
  {
    hide NextAlarm, AnyVisible, Admissible;
    AllHanded(Drain(r, None, now));
  }

  lemma {:induction false} WakeKeptByAlarm(r: Room, now: Time)
    requires WakeOk(r)
    ensures WakeOk(DoAlarm(r, now))
  {
    hide NextAlarm, ClearIfIdle, Schedule;
    var s := Sweep(r, now).(alarm := None);
    WakeCleared(r, s);
    var c := s.(pushDue := None);
    if !Wakes(s, now) && s.pushDue.Some? && s.pushDue.value <= now {
      assert !AnyVisible(c.q) || OwnerOnline(r);
      WakeShrinksOrHanded(r, c);
      WakeCleared(c, c);
    }
  }

  lemma {:induction false} WakeShrinksOrHanded(r: Room, c: Room)
    requires WakeOk(r) && Sub(c.q, r.q) && c.handed == r.handed && c.woken == r.woken && c.owners == r.owners && c.open == r.open
    requires !AnyVisible(c.q) || OwnerOnline(r)
    ensures WakeOk(c)
  {}

  lemma {:induction false} WakeKept(r: Room, e: Event, now: Time)
    requires WakeOk(r) && PushOk(r, now) && RowsOk(r) && r.nextId <= MAX_SAFE + 1 && Accepting(e)
    ensures WakeOk(Do(r, e, now))
  {
    hide PushOk, RowsOk, WakeOk, Schedule, ClearIfIdle, Sweep, DoSend, DoAlarm, Drain, IsSafeAckId;
    match e
    case Connect(ws) =>
      if !(ws in r.open || ws in r.owners) {
        SweepOnlyRows(r, now);
        WakeCleared(r, Sweep(r, now));
        ScheduleClearKeeps(Sweep(r, now));
        WakeSockets(Schedule(ClearIfIdle(Sweep(r, now))), DoConnect(r, ws, now));
      }
    case Close(ws) => WakeSockets(r, r.(open := r.open - {ws}));
    case Auth(ws, valid, claimAllowed, authedOk, failsAt) =>
      var o := r.(claimed := r.claimed || claimAllowed, owners := r.owners + {ws});
      if ws in r.open {
        assert RowsOk(o) by { RowsIgnore(r, o); }
        WakeKeptByDrain(o, now);
      } else {
        WakeSockets(r, o);
      }
    case Send(b64, silent, deaf) => WakeKeptBySend(r, b64, silent, now);
    case Ack(ws, id) => WakeCleared(r, r.(q := r.q - {id}));
    case AlarmRings => WakeKeptByAlarm(r, now);
    case AlarmEnds =>
      WakeCleared(r, r);
      ScheduleClearKeeps(r);
      if r.handlers > 0 { WakeSockets(Schedule(ClearIfIdle(r)), DoAlarmEnds(r)); }
    case Restart =>
      WakeSockets(r, r.(handlers := 0));
      WakeScheduled(r.(handlers := 0));
  }

  lemma {:induction false} RowsIgnore(r: Room, s: Room)
    requires RowsOk(r) && s.q == r.q && s.nextId == r.nextId && s.clock == r.clock
    ensures RowsOk(s)
  {}

  lemma {:induction false} ScheduleClearKeeps(r: Room)
    ensures var s := Schedule(ClearIfIdle(r)); s == r.(pushDue := s.pushDue, alarm := s.alarm)
  {
    hide NextAlarm, AnyVisible;
  }

  lemma {:induction false} WakeSockets(r: Room, s: Room)
    requires WakeOk(r) && s.q == r.q && s.pushDue == r.pushDue && s.handed == r.handed && s.woken == r.woken
    requires s.owners * s.open <= r.owners * r.open
    ensures WakeOk(s)
  {}

  lemma {:induction false} WakeScheduled(r: Room)
    requires WakeOk(r)
    ensures WakeOk(Schedule(r))
  {
    hide NextAlarm;
  }

  lemma {:induction false} NextIdGrows(r: Room, s: Step)
    ensures r.nextId <= Next(r, s).nextId
  {
    hide Do;
    DoShape(r, s.event, s.now);
  }

  lemma {:induction false} RunWakeOk(steps: seq<Step>)
    requires forall i :: 0 <= i < |steps| ==> Accepting(steps[i].event)
    requires Run(EMPTY_ROOM, steps).nextId <= MAX_SAFE + 1
    ensures WakeOk(Run(EMPTY_ROOM, steps))
  {
    hide Do, PushOk, RowsOk, CapsOk, WakeOk, Accepting;
    if steps == [] {
      AllHanded(EMPTY_ROOM);
    } else {
      var r, s := Run(EMPTY_ROOM, steps[..|steps| - 1]), steps[|steps| - 1];
      NextIdGrows(r, s);
      RunWakeOk(steps[..|steps| - 1]);
      RunRowsOk(steps[..|steps| - 1]);
      RunPushOk(steps[..|steps| - 1]);
      if r.clock <= s.now {
        PushIgnores(r, r, r.clock, s.now);
        WakeKept(r, s.event, s.now);
        WakeSockets(Do(r, s.event, s.now), Next(r, s));
      }
    }
  }

  // ---------------------------------------------------------------------------
  // Exactly when a visible row is forgotten

  /** The step drains the backlog to an authenticated owner. */
  predicate Drains(r: Room, e: Event) { e.Auth? && e.valid && e.authedOk && e.ws in r.open }

  /** The two ways a row nobody was told about loses its wake-up: the drain that clears
      the deadline does not get as far as the row, or the deadline passes while an
      owner socket is still listed although it did not take the row. */
  ghost predicate Forgets(r: Room, s: Step, id: Id) {
    && r.clock <= s.now
    && id in Sweep(r, s.now).q && !r.q[id].silent && id !in r.handed && id !in r.woken
    && (|| (Drains(r, s.event)
            && !(DrainReaches(Sweep(r, s.now).q, s.event.failsAt, id) && Sendable(id, r.q[id])))
        || (s.event.AlarmRings? && r.pushDue.Some? && r.pushDue.value <= s.now && OwnerOnline(r)))
  }

  /** What the step leaves of a row's standing, for the steps that neither drain, ring
      nor store it. */
  lemma {:induction false} QuietStep(r: Room, s: Room, id: Id)
    requires id in s.q && !s.q[id].silent && Sub(s.q, r.q) && LookedAfter(r, id)
    requires r.handed <= s.handed && r.woken <= s.woken
    requires s.pushDue == r.pushDue || !AnyVisible(s.q)
    ensures LookedAfter(s, id)
  {}

  lemma {:induction false} DrainStanding(r: Room, failsAt: Option<Id>, now: Time, id: Id)
    requires id in Drain(r, failsAt, now).q && !Drain(r, failsAt, now).q[id].silent
    ensures id in Sweep(r, now).q && Drain(r, failsAt, now).q[id] == r.q[id]
    ensures LookedAfter(Drain(r, failsAt, now), id) <==>
      || id in r.handed || id in r.woken
      || (DrainReaches(Sweep(r, now).q, failsAt, id) && Sendable(id, r.q[id]))
  {
    hide NextAlarm, AnyVisible, Sendable, Malformed, DrainReaches;
    assert Sweep(r.(pushDue := None), now).q == Sweep(r, now).q;
  }

  lemma {:induction false} AlarmStanding(r: Room, now: Time, id: Id)
    requires id in DoAlarm(r, now).q && !DoAlarm(r, now).q[id].silent && LookedAfter(r, id)
    ensures id in Sweep(r, now).q && DoAlarm(r, now).q[id] == r.q[id]
    ensures !LookedAfter(DoAlarm(r, now), id) <==>
      id !in r.handed && id !in r.woken && r.pushDue.Some? && r.pushDue.value <= now && OwnerOnline(r)
  {
    hide NextAlarm;
    assert !Sweep(r, now).q[id].silent && AnyVisible(Sweep(r, now).q);
  }

  lemma {:induction false} SendStanding(r: Room, b64: string, silent: bool, deaf: set<Socket>, now: Time, id: Id)
    requires RowsOk(r) && PushOk(r, now)
    requires id in DoSend(r, b64, silent, deaf, now).q && !DoSend(r, b64, silent, deaf, now).q[id].silent
    requires id in r.q ==> LookedAfter(r, id)
    ensures LookedAfter(DoSend(r, b64, silent, deaf, now), id)
  {
    hide NextAlarm, Admits, Base64.IsCanonicalBase64, PushOk, AnyVisible, Admissible, ClearIfIdle, Deliver, LookedAfter;
    var s := ClearIfIdle(Sweep(r, now));
    ClearKeepsRows(Sweep(r, now));
    ClearedOk(r, Sweep(r, now), now);
    SendShape(r, b64, silent, deaf, now);
    if id in s.q {
      assert DoSend(r, b64, silent, deaf, now).q[id] == r.q[id];
      SweptStanding(r, now, id);
    }
    if SendOutcome(r, b64, now).Sent? { DeliverStanding(s, b64, silent, deaf, now, id); }
  }

  lemma {:induction false} SweptStanding(r: Room, now: Time, id: Id)
    requires id in ClearIfIdle(Sweep(r, now)).q && !r.q[id].silent && LookedAfter(r, id)
    ensures LookedAfter(ClearIfIdle(Sweep(r, now)), id)
  {
    assert AnyVisible(Sweep(r, now).q) by { assert !Sweep(r, now).q[id].silent; }
  }

  lemma {:induction false} DeliverStanding(s: Room, b64: string, silent: bool, deaf: set<Socket>, now: Time, id: Id)
    requires PushOk(s, now) && s.nextId !in s.q
    requires id in Deliver(s, b64, silent, deaf, now).q && !Deliver(s, b64, silent, deaf, now).q[id].silent
    requires id in s.q ==> LookedAfter(s, id)
    ensures LookedAfter(Deliver(s, b64, silent, deaf, now), id)
  {
    hide NextAlarm, AnyVisible;
  }

  /** The steps other than a drain, the alarm and a send keep every row's standing. */
  lemma {:induction false} OtherStanding(r: Room, e: Event, now: Time, id: Id)
    requires !Drains(r, e) && !e.AlarmRings? && !e.Send?
    requires id in Do(r, e, now).q && !Do(r, e, now).q[id].silent && id in r.q && LookedAfter(r, id)
    ensures LookedAfter(Do(r, e, now), id)
  {
    hide NextAlarm, AnyVisible, LookedAfter, DoSend, DoAlarm, Drain;
    var s := Do(r, e, now);
    assert Sub(s.q, r.q);
    assert s.pushDue == r.pushDue || !AnyVisible(s.q);
    QuietStep(r, s, id);
  }

  /** Every step, by whomever: a visible row that somebody was told about, or will be
      within three seconds of its arrival, loses that if and only if the step forgets
      it. A row the step itself stores is never forgotten. */
  lemma {:induction false} ForgottenExactly(r: Room, s: Step, id: Id)
    requires RowsOk(r) && PushOk(r, s.now) && r.clock <= s.now
    requires id in Next(r, s).q && !Next(r, s).q[id].silent && (id in r.q ==> LookedAfter(r, id))
    ensures !LookedAfter(Next(r, s), id) <==> Forgets(r, s, id)
  {
    hide LookedAfter, PushOk, RowsOk, DoSend, DoAlarm, Drain, DrainReaches, Sendable;
    var t := Do(r, s.event, s.now);
    ClockUnseen(t, s.now, id);
    if s.event.Send? {
      SendStanding(r, s.event.b64, s.event.silent, s.event.deaf, s.now, id);
    } else {
      StoredBefore(r, s.event, s.now, id);
      if s.event.AlarmRings? {
        AlarmStanding(r, s.now, id);
      } else if Drains(r, s.event) {
        var o := r.(claimed := r.claimed || s.event.claimAllowed, owners := r.owners + {s.event.ws});
        assert t == Drain(o, s.event.failsAt, s.now);
        DrainStanding(o, s.event.failsAt, s.now, id);
        assert Sweep(o, s.now).q == Sweep(r, s.now).q;
      } else {
        OtherStanding(r, s.event, s.now, id);
      }
    }
  }

  lemma {:induction false} ClockUnseen(t: Room, now: Time, id: Id)
    requires id in t.q
    ensures LookedAfter(t.(clock := now), id) == LookedAfter(t, id)
  {}

  lemma {:induction false} StoredBefore(r: Room, e: Event, now: Time, id: Id)
    requires !e.Send? && id in Do(r, e, now).q
    ensures id in r.q && Do(r, e, now).q[id] == r.q[id]
  {
    hide Do;
    DoShape(r, e, now);
  }

  /** In every run each queued visible row that no step forgot was handed to an owner,
      or was followed by a wake-up, or has one due within three seconds of its arrival
      with the alarm no later (or gone off, its handler running). */
  lemma {:induction false} NoVisibleRowForgotten(steps: seq<Step>, id: Id)
    requires id in Run(EMPTY_ROOM, steps).q && !Run(EMPTY_ROOM, steps).q[id].silent
    requires forall m :: 0 <= m < |steps| ==> !Forgets(Before(steps, m), steps[m], id)
    ensures var r := Run(EMPTY_ROOM, steps);
      || id in r.handed
      || id in r.woken
      || (&& r.pushDue.Some? && r.pushDue.value <= r.q[id].ts + 3000
          && ((r.handlers > 0 && r.alarm.None?) || (r.alarm.Some? && r.alarm.value <= r.pushDue.value)))
  {
    hide Run, Before, Forgets;
    NotForgotten(steps, id);
    AlarmBeforeEveryDeadline(steps);
  }

  lemma {:induction false} NotForgotten(steps: seq<Step>, id: Id)
    requires id in Run(EMPTY_ROOM, steps).q && !Run(EMPTY_ROOM, steps).q[id].silent
    requires forall m :: 0 <= m < |steps| ==> !Forgets(Before(steps, m), steps[m], id)
    ensures LookedAfter(Run(EMPTY_ROOM, steps), id)
  {
    hide Do, PushOk, RowsOk, CapsOk, LookedAfter, Forgets;
    if steps != [] {
      var rest, s := steps[..|steps| - 1], steps[|steps| - 1];
      var r := Run(EMPTY_ROOM, rest);
      RunRowsOk(rest);
      RunPushOk(rest);
      forall m | 0 <= m < |rest| ensures !Forgets(Before(rest, m), rest[m], id) {
        assert Before(rest, m) == Before(steps, m) by { assert rest[..m] == steps[..m]; }
      }
      assert Before(steps, |rest|) == r;
      assert !Forgets(r, s, id);
      if r.clock <= s.now {
        if id in r.q {
          RowUnchanged(r, s, id);
          NotForgotten(rest, id);
        }
        PushIgnores(r, r, r.clock, s.now);
        ForgottenExactly(r, s, id);
      } else {
        NotForgotten(rest, id);
      }
    }
  }

  lemma {:induction false} RowUnchanged(r: Room, s: Step, id: Id)
    requires RowsOk(r) && id in Next(r, s).q && id in r.q
    ensures Next(r, s).q[id] == r.q[id]
  {
    hide Do, Admissible;
    DoShape(r, s.event, s.now);
  }

  /** While open sockets accept every frame, no step forgets anything. The bound on ids
      is where SQLite's exceed what an acknowledgement can name. */
  lemma {:induction false} AcceptingForgetsNothing(steps: seq<Step>, m: nat, id: Id)
    requires m < |steps| && forall i :: 0 <= i < |steps| ==> Accepting(steps[i].event)
    requires Before(steps, m).nextId <= MAX_SAFE + 1
    ensures !Forgets(Before(steps, m), steps[m], id)
  {
    hide Run, PushOk, Admissible;
    var r := Before(steps, m);
    forall i | 0 <= i < |steps[..m]| ensures Accepting(steps[..m][i].event) { assert steps[..m][i] == steps[i]; }
    RunWakeOk(steps[..m]);
    RunRowsOk(steps[..m]);
  }

  // ---------------------------------------------------------------------------
  // Both ways happen

  const FRAME := "AAAA"

  const WAITING := Row(FRAME, 0, false)

  lemma {:induction false} FrameCanonical()
    ensures forall max :: max >= 4 ==> Base64.IsCanonicalBase64(FRAME, max, None)
  {
    assert FRAME[4..] == "";
    assert Base64.MatchesStandard(FRAME);
    assert Base64.LowBitsClear(FRAME);
  }

  lemma {:induction false} NothingQueued()
    ensures QueueBytes(map[]) == 0
  {
    assert Lengths(map[]) == map[];
  }

  lemma {:induction false} OneQueued(q: Queue)
    requires q == map[1 := WAITING]
    ensures |q| == 1 && QueueBytes(q) == 4
  {
    hide QueueBytes;
    NothingQueued();
    StoredSize(map[], 1, WAITING);
    assert q == map[][1 := WAITING];
  }

  /** A visible frame arrives in a room with at most one other row, and no owner socket
      takes it. */
  lemma {:induction false} StoredUnseen(r: Room, deaf: set<Socket>)
    requires r.q == map[] || r.q == map[1 := WAITING]
    requires r.clock == 0 && r.owners * r.open - deaf == {} && (r.q == map[] ==> r.pushDue.None?)
    ensures var s := Next(r, At(0, Send(FRAME, false, deaf)));
      s == r.(q := r.q[r.nextId := WAITING], nextId := r.nextId + 1,
              pushDue := if r.pushDue.Some? then r.pushDue else Some(3000), alarm := s.alarm)
  {
    hide NextAlarm, AnyVisible, QueueBytes, Base64.IsCanonicalBase64, Schedule, Admits, Sweep, ClearIfIdle;
    FrameCanonical();
    SmallRoom(r);
    assert SendOutcome(r, FRAME, 0) == Sent(r.nextId);
    SentUnseen(r, deaf);
  }

  lemma {:induction false} SmallRoom(r: Room)
    requires r.q == map[] || r.q == map[1 := WAITING]
    requires r.q == map[] ==> r.pushDue.None?
    ensures Sweep(r, 0) == r && ClearIfIdle(r) == r && Admits(r, FRAME)
  {
    hide QueueBytes;
    assert Sweep(r, 0).q == r.q;
    if r.q == map[] {
      NothingQueued();
    } else {
      OneQueued(r.q);
      assert !r.q[1].silent;
    }
  }

  lemma {:induction false} SentUnseen(r: Room, deaf: set<Socket>)
    requires SendOutcome(r, FRAME, 0) == Sent(r.nextId) && Sweep(r, 0) == r && ClearIfIdle(r) == r
    requires r.clock == 0 && r.owners * r.open - deaf == {}
    ensures var s := Next(r, At(0, Send(FRAME, false, deaf)));
      s == r.(q := r.q[r.nextId := WAITING], nextId := r.nextId + 1,
              pushDue := if r.pushDue.Some? then r.pushDue else Some(3000), alarm := s.alarm)
  {
    hide NextAlarm, SendOutcome, Sweep, ClearIfIdle;
  }

  /** Four steps one by one. */
  lemma {:induction false} FourSteps(a: Step, b: Step, c: Step, d: Step)
    ensures Run(EMPTY_ROOM, [a, b, c]) == Next(Next(Next(EMPTY_ROOM, a), b), c)
    ensures Run(EMPTY_ROOM, [a, b, c] + [d]) == Next(Run(EMPTY_ROOM, [a, b, c]), d)
  {
    hide Next;
    assert [a, b, c][..2] == [a, b] && [a, b][..1] == [a] && [a][..0] == [];
    assert Run(EMPTY_ROOM, [a]) == Next(EMPTY_ROOM, a);
    assert Run(EMPTY_ROOM, [a, b]) == Next(Next(EMPTY_ROOM, a), b);
    assert ([a, b, c] + [d])[..3] == [a, b, c];
  }

  lemma {:induction false} ConnectFirst(ws: Socket)
    ensures var r := Next(EMPTY_ROOM, At(0, Connect(ws)));
      r == EMPTY_ROOM.(open := {ws}, alarm := r.alarm)
  {
    hide NextAlarm;
    assert Sweep(EMPTY_ROOM, 0).q == map[];
    assert {} + {ws} == {ws};
  }

  /** Two frames wait, the owner connects and proves its key, and the socket dies at the
      first frame: the second keeps neither a delivery nor a wake-up. */
  lemma {:induction false} InterruptedDrainForgets()
    ensures var steps := [At(0, Connect(7)), At(0, Send(FRAME, false, {})), At(0, Send(FRAME, false, {}))];
      var s := At(10, Auth(7, true, true, true, Some(1)));
      var r := Run(EMPTY_ROOM, steps + [s]);
      && Forgets(Run(EMPTY_ROOM, steps), s, 2)
      && 2 in r.q && !r.q[2].silent && !LookedAfter(r, 2)
  {
    hide Run, Next, Forgets, LookedAfter;
    var a, b := At(0, Connect(7)), At(0, Send(FRAME, false, {}));
    FourSteps(a, b, b, At(10, Auth(7, true, true, true, Some(1))));
    var r1 := Next(EMPTY_ROOM, a);
    ConnectFirst(7);
    StoredUnseen(r1, {});
    var r2 := Next(r1, b);
    assert r2.q == map[1 := WAITING] && 1 in r2.q;
    StoredUnseen(r2, {});
    InterruptedAt(Next(r2, b));
  }

  lemma {:induction false} InterruptedAt(r: Room)
    requires r.q == map[1 := WAITING, 2 := WAITING] && r.clock <= 10
    requires r.open == {7} && 2 !in r.handed && 2 !in r.woken
    ensures var s := At(10, Auth(7, true, true, true, Some(1)));
      && Forgets(r, s, 2) && 2 in Next(r, s).q && !Next(r, s).q[2].silent && !LookedAfter(Next(r, s), 2)
  {
    hide NextAlarm, AnyVisible, Admissible;
    FrameCanonical();
    FrameAdmissible();
    var o := r.(claimed := true, owners := r.owners + {7});
    assert Sweep(o.(pushDue := None), 10).q == r.q && Sweep(r, 10).q == r.q;
  }

  lemma {:induction false} FrameAdmissible()
    ensures Admissible(FRAME)
  {
    hide Base64.IsCanonicalBase64;
    FrameCanonical();
  }

  /** An owner socket that no longer takes frames is still listed when the deadline
      passes: the alarm sends no wake-up and drops the deadline. */
  lemma {:induction false} StaleOwnerForgets()
    ensures var steps := [At(0, Connect(7)), At(0, Auth(7, true, true, true, None)), At(0, Send(FRAME, false, {7}))];
      var s := At(3000, AlarmRings);
      var r := Run(EMPTY_ROOM, steps + [s]);
      && Forgets(Run(EMPTY_ROOM, steps), s, 1)
      && 1 in r.q && !r.q[1].silent && !LookedAfter(r, 1)
  {
    hide Run, Next, Forgets, LookedAfter;
    var a, b, c := At(0, Connect(7)), At(0, Auth(7, true, true, true, None)), At(0, Send(FRAME, false, {7}));
    FourSteps(a, b, c, At(3000, AlarmRings));
    var r1 := Next(EMPTY_ROOM, a);
    ConnectFirst(7);
    DrainsNothing(r1);
    var r2 := Next(r1, b);
    StoredUnseen(r2, {7});
    StaleOwnerAt(Next(r2, c));
  }

  lemma {:induction false} DrainsNothing(r: Room)
    requires r.q == map[] && r.clock == 0 && r.open == {7} && r.owners == {} && r.pushDue.None?
    ensures var s := Next(r, At(0, Auth(7, true, true, true, None)));
      s == r.(claimed := true, owners := {7}, alarm := s.alarm)
  {
    hide NextAlarm;
    var d := Sweep(r.(claimed := true, owners := {7}), 0);
    assert d.q == map[] && Drained(d.q, None) == map[] && DrainedTo(d.q, None) == {};
    assert r.owners + {7} == {7};
  }

  lemma {:induction false} StaleOwnerAt(r: Room)
    requires r.q == map[1 := WAITING] && r.clock <= 3000 && r.pushDue == Some(3000)
    requires r.open == {7} && r.owners == {7} && 1 !in r.handed && 1 !in r.woken
    ensures var s := At(3000, AlarmRings);
      && Forgets(r, s, 1) && 1 in Next(r, s).q && !Next(r, s).q[1].silent && !LookedAfter(Next(r, s), 1)
  {
    hide NextAlarm, AnyVisible;
    assert 7 in r.owners * r.open;
    assert Sweep(r, 3000).q == r.q;
  }
}
