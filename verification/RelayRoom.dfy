/** The mailbox as the durable object it is: its queue, sockets and alarm updated in
    place. Each method is one atomic section of a handler and is proved to move the
    state exactly as `MailboxModel.Do` says. */
module RelayRoom {
  import opened Sums
  import opened MailboxModel
  import Base64
  import Budgets

  /** `earliestTimestamp`. */
  method Earliest(vs: seq<Option<Deadline>>) returns (earliest: Option<Deadline>)
    ensures earliest == EarliestTimestamp(vs)
  {
    earliest := None;
    for i := 0 to |vs|
      invariant earliest == EarliestTimestamp(vs[..i])
    {
      assert vs[..i + 1][..i] == vs[..i];
      var v := vs[i];
      if !(v.None? || !IsSafeInteger(v.value) || v.value < 0) {
        if earliest.None? || v.value < earliest.value { earliest := v; }
      }
    }
    assert vs[..|vs|] == vs;
  }

  lemma {:induction false} OldestFound(q: Queue, k: Option<Id>)
    requires k.None? ==> q == map[]
    requires k.Some? ==> IsOldest(q, k.value)
    ensures Oldest(q) == if k.None? then None else Some(q[k.value].ts)
  {
    if k.Some? { var j :| IsOldest(q, j) && Oldest(q).value == q[j].ts; }
  }

  predicate IsSmallest(s: set<Id>, id: Id) { id in s && forall j :: j in s ==> id <= j }

  lemma {:induction false} SmallestExists(s: set<Id>)
    requires s != {}
    ensures exists id :: IsSmallest(s, id)
    decreases |s|
  {
    var k :| k in s;
    if s == {k} {
      assert IsSmallest(s, k);
    } else {
      assert s - {k} != {};
      SmallestExists(s - {k});
      var m :| IsSmallest(s - {k}, m);
      SmallestOfTwo(s, k, m);
    }
  }

  lemma {:induction false} SmallestOfTwo(s: set<Id>, k: Id, m: Id)
    requires k in s && IsSmallest(s - {k}, m)
    ensures IsSmallest(s, if m <= k then m else k)
  {
    forall j | j in s ensures (if m <= k then m else k) <= j {
      if j != k { assert j in s - {k}; }
    }
  }

  class RelayRoom {
    var q: Queue
    var nextId: Id
    var claimed: bool
    var pushDue: Option<Deadline>
    var alarm: Option<Deadline>
    var owners: set<Socket>
    var open: set<Socket>
    var handlers: nat
    ghost var clock: Time
    ghost var handed: set<Id>
    ghost var woken: set<Id>
    ghost var notices: seq<Time>

    ghost function State(): Room
      reads this
    {
      Room(q, nextId, claimed, pushDue, alarm, owners, open, handlers, clock, handed, woken, notices)
    }

    constructor ()
      ensures State() == EMPTY_ROOM
    {
      q, nextId, claimed, pushDue, alarm := map[], 1, false, None, None;
      owners, open, handlers := {}, {}, 0;
      clock, handed, woken, notices := 0, {}, {}, [];
    }

    method SweepExpired(now: Time)
      modifies this`q
      ensures State() == Sweep(old(State()), now)
    {
      q := map id | id in q && !(q[id].ts <= now - QUEUE_TTL_MS) :: q[id];
    }

    method PendingVisibleCount() returns (n: nat)
      ensures n == |Visible(q)|
      ensures n == 0 <==> !AnyVisible(q)
    {
      var visible := Visible(q);
      n := |visible|;
      if AnyVisible(q) {
        var id :| id in q && !q[id].silent;
        assert id in visible;
      } else {
        assert visible == {};
      }
    }

    method ClearPushDueIfIdle()
      modifies this`pushDue
      ensures State() == ClearIfIdle(old(State()))
    {
      var n := PendingVisibleCount();
      if n == 0 { pushDue := None; }
    }

    method OldestExpiryAt() returns (expiry: Option<Deadline>)
      ensures expiry == ExpiryOf(Oldest(q))
    {
      hide Oldest;
      var oldest: Option<Id> := None;
      var left := q.Keys;
      while left != {}
        invariant left <= q.Keys
        invariant oldest.Some? ==> oldest.value in q
        invariant forall k :: k in q && k !in left ==> oldest.Some? && q[oldest.value].ts <= q[k].ts
        decreases |left|
      {
        var k :| k in left;
        if oldest.None? || q[k].ts < q[oldest.value].ts { oldest := Some(k); }
        left := left - {k};
      }
      OldestFound(q, oldest);
      expiry := ExpiryOf(if oldest.None? then None else Some(q[oldest.value].ts));
    }

    method ScheduleNextAlarm()
      modifies this`alarm
      ensures State() == Schedule(old(State()))
    {
      var expiry := OldestExpiryAt();
      var next := Earliest([pushDue, expiry]);
      if next.None? {
        if alarm.Some? { alarm := None; }
        return;
      }
      if alarm != next { alarm := next; }
    }

    method ScheduleWake(now: Time)
      modifies this`pushDue, this`alarm
      ensures State() == Schedule(Arm(old(State()), now))
    {
      if pushDue.None? { pushDue := Some(now + PUSH_COALESCE_MS); }
      ScheduleNextAlarm();
    }

    method Connect(ws: Socket, now: Time)
      modifies this
      ensures State() == Do(old(State()), Event.Connect(ws), now)
    {
      if ws in open || ws in owners { return; }
      SweepExpired(now);
      ClearPushDueIfIdle();
      ScheduleNextAlarm();
      open := open + {ws};
    }

    /** `alarm()`, up to the push requests when a wake-up is sent, else to its end. */
    method AlarmRings(now: Time)
      modifies this
      ensures State() == Do(old(State()), Event.AlarmRings, now)
    {
      hide NextAlarm, AnyVisible, Visible, Schedule, ClearIfIdle;
      alarm := None;
      SweepExpired(now);
      if pushDue.Some? && pushDue.value <= now {
        pushDue := None;
        var pending := PendingVisibleCount();
        if pending > 0 && owners * open == {} {
          handlers := handlers + 1;
          woken := woken + Visible(q);
          notices := notices + [now];
          return;
        }
      }
      ClearPushDueIfIdle();
      ScheduleNextAlarm();
    }

    method AlarmEnds(now: Time)
      modifies this
      ensures State() == Do(old(State()), Event.AlarmEnds, now)
    {
      if handlers == 0 { return; }
      ClearPushDueIfIdle();
      ScheduleNextAlarm();
      handlers := handlers - 1;
    }

    method Restart(now: Time)
      modifies this
      ensures State() == Do(old(State()), Event.Restart, now)
    {
      handlers := 0;
      if alarm == None { ScheduleNextAlarm(); }
    }

    method Ack(ws: Socket, id: Id, now: Time)
      modifies this
      ensures State() == Do(old(State()), Event.Ack(ws, id), now)
    {
      if !IsSafeAckId(id) || ws !in owners { return; }
      q := q - {id};
      ClearPushDueIfIdle();
      ScheduleNextAlarm();
    }

    /** Offers a frame to every open owner socket; true if one took it. */
    method OfferToOwners(deaf: set<Socket>) returns (ownerOnline: bool)
      ensures ownerOnline <==> owners * open - deaf != {}
    {
      ownerOnline := false;
      var peers := open;
      while peers != {}
        invariant peers <= open
        invariant ownerOnline <==> owners * (open - peers) - deaf != {}
        decreases |peers|
      {
        var peer :| peer in peers;
        if peer in owners && peer !in deaf {
          ownerOnline := true;
          assert peer in owners * (open - (peers - {peer})) - deaf;
        }
        assert open - (peers - {peer}) == (open - peers) + {peer};
        peers := peers - {peer};
      }
      assert open - peers == open;
    }

    method HasRoomFor(b64: string) returns (ok: bool)
      ensures ok == Admits(State(), b64)
    {
      var maxRows := if claimed then MAX_QUEUE else MAX_QUEUE_UNCLAIMED;
      var maxBytes := if claimed then MAX_QUEUE_B64 else MAX_QUEUE_B64_UNCLAIMED;
      var bytes := Total(Lengths(q));
      ok := !(|q| >= maxRows || bytes + |b64| > maxBytes);
    }

    /** An admitted frame is stored, answered, and offered to the owner's sockets. */
    method Store(b64: string, silent: bool, deaf: set<Socket>, now: Time)
      modifies this
      ensures State() == Deliver(old(State()), b64, silent, deaf, now)
    {
      hide NextAlarm;
      q := q[nextId := Row(b64, now, silent)];
      var ownerOnline := OfferToOwners(deaf);
      if ownerOnline { handed := handed + {nextId}; }
      nextId := nextId + 1;
      if !ownerOnline && !silent { ScheduleWake(now); } else { ScheduleNextAlarm(); }
    }

    method Send(b64: string, silent: bool, deaf: set<Socket>, now: Time) returns (outcome: Outcome)
      modifies this
      ensures outcome == SendOutcome(old(State()), b64, now)
      ensures State() == Do(old(State()), Event.Send(b64, silent, deaf), now)
    {
      hide Base64.IsCanonicalBase64, NextAlarm, AnyVisible, Admits, Deliver;
      if !Base64.IsCanonicalBase64(b64, Budgets.MAX_FRAME_CHARS, None) { return Invalid; }
      if |b64| > Budgets.MAX_MSG_B64 { return TooLarge; }
      SweepExpired(now);
      ClearPushDueIfIdle();
      var ok := HasRoomFor(b64);
      if !ok { return Full; }
      outcome := Outcome.Sent(nextId);
      Store(b64, silent, deaf, now);
    }

    /** The authenticated owner's backlog, in id order: malformed rows are deleted,
        the others sent, until a send throws. */
    method DrainBacklog(failsAt: Option<Id>)
      modifies this`q, this`handed
      ensures State() == old(State()).(q := Drained(old(q), failsAt), handed := old(handed) + DrainedTo(old(q), failsAt))
    {
      hide Sendable, Malformed, Kept, Given, Drained, DrainedTo, Progress, IsSmallest;
      ghost var q0, handed0 := q, handed;
      var pending := q.Keys;
      ghost var done: set<Id> := {};
      NothingDone(q0, failsAt);
      while pending != {}
        invariant Progress(q0, pending, done, failsAt)
        invariant q == Kept(q0, done)
        invariant handed == handed0 + Given(q0, done)
        decreases |pending|
      {
        SmallestExists(pending);
        var id :| IsSmallest(pending, id);
        Chosen(q0, pending, done, failsAt, id);
        if !Sendable(id, q[id]) {
          if IsSafeAckId(id) { q := q - {id}; }
        } else if failsAt == Some(id) {
          return;
        } else {
          handed := handed + {id};
        }
        pending, done := pending - {id}, done + {id};
      }
      AllDone(q0, done, failsAt);
    }

    /** `auth`, from the verified signature on. */
    method Auth(ws: Socket, valid: bool, claimAllowed: bool, authedOk: bool, failsAt: Option<Id>, now: Time)
      modifies this
      ensures State() == Do(old(State()), Event.Auth(ws, valid, claimAllowed, authedOk, failsAt), now)
    {
      if !valid { return; }
      if !claimed && claimAllowed { claimed := true; }
      owners := owners + {ws};
      if !authedOk || ws !in open { return; }
      pushDue := None;
      SweepExpired(now);
      DrainBacklog(failsAt);
      ClearPushDueIfIdle();
      ScheduleNextAlarm();
    }
  }

  /** The rows left when those in `done` were dealt with, and those handed over. */
  function Kept(q0: Queue, done: set<Id>): Queue {
    map id | id in q0 && !(id in done && Malformed(id, q0[id])) :: q0[id]
  }

  function Given(q0: Queue, done: set<Id>): set<Id> {
    set id | id in q0 && id in done && Sendable(id, q0[id])
  }

  /** The rows before every pending one are dealt with, and none of their sends threw. */
  ghost predicate Progress(q0: Queue, pending: set<Id>, done: set<Id>, failsAt: Option<Id>) {
    && done !! pending && done + pending == q0.Keys
    && (forall id, j :: id in done && j in pending ==> id < j)
    && (forall id :: id in done ==> failsAt != Some(id) || !Sendable(id, q0[id]))
  }

  lemma {:induction false} NothingDone(q0: Queue, failsAt: Option<Id>)
    ensures Kept(q0, {}) == q0 && Given(q0, {}) == {} && Progress(q0, q0.Keys, {}, failsAt)
  {
    hide Malformed, Sendable;
  }

  lemma {:induction false} OneMore(q0: Queue, done: set<Id>, id: Id)
    requires id in q0 && id !in done
    ensures Sendable(id, q0[id]) ==> Kept(q0, done + {id}) == Kept(q0, done) && Given(q0, done + {id}) == Given(q0, done) + {id}
    ensures !Sendable(id, q0[id]) ==> Given(q0, done + {id}) == Given(q0, done)
    ensures !Sendable(id, q0[id]) ==> Kept(q0, done + {id}) == if IsSafeAckId(id) then Kept(q0, done) - {id} else Kept(q0, done)
    ensures id in Kept(q0, done) && Kept(q0, done)[id] == q0[id]
  {
    hide Admissible;
  }

  /** When the send of row `f` throws, exactly the rows before `f` were dealt with. */
  lemma {:induction false} StopsHere(q0: Queue, done: set<Id>, f: Id)
    requires f in q0 && Sendable(f, q0[f])
    requires forall id :: id in q0 ==> (id in done <==> id < f)
    ensures Kept(q0, done) == Drained(q0, Some(f)) && Given(q0, done) == DrainedTo(q0, Some(f))
  {
    hide Sendable, Malformed;
  }

  lemma {:induction false} ProgressStep(q0: Queue, pending: set<Id>, done: set<Id>, failsAt: Option<Id>, id: Id)
    requires Progress(q0, pending, done, failsAt) && IsSmallest(pending, id)
    ensures id in q0 && id !in done
    ensures forall j :: j in q0 ==> (j in done <==> j < id)
    ensures failsAt != Some(id) || !Sendable(id, q0[id]) ==> Progress(q0, pending - {id}, done + {id}, failsAt)
  {
    hide Sendable;
  }

  /** What dealing with the smallest pending row does. */
  lemma {:induction false} Chosen(q0: Queue, pending: set<Id>, done: set<Id>, failsAt: Option<Id>, id: Id)
    requires Progress(q0, pending, done, failsAt) && IsSmallest(pending, id)
    ensures id in pending && id in q0 && id in Kept(q0, done) && Kept(q0, done)[id] == q0[id]
    ensures failsAt != Some(id) || !Sendable(id, q0[id]) ==> Progress(q0, pending - {id}, done + {id}, failsAt)
    ensures Sendable(id, q0[id]) ==> Kept(q0, done + {id}) == Kept(q0, done) && Given(q0, done + {id}) == Given(q0, done) + {id}
    ensures !Sendable(id, q0[id]) ==> Given(q0, done + {id}) == Given(q0, done)
    ensures !Sendable(id, q0[id]) ==> Kept(q0, done + {id}) == if IsSafeAckId(id) then Kept(q0, done) - {id} else Kept(q0, done)
    ensures Sendable(id, q0[id]) && failsAt == Some(id) ==>
      Kept(q0, done) == Drained(q0, failsAt) && Given(q0, done) == DrainedTo(q0, failsAt)
  {
    hide Sendable, Malformed, Kept, Given, Drained, DrainedTo, Progress;
    ProgressStep(q0, pending, done, failsAt, id);
    OneMore(q0, done, id);
    if Sendable(id, q0[id]) && failsAt == Some(id) { StopsHere(q0, done, id); }
  }

  lemma {:induction false} AllDone(q0: Queue, done: set<Id>, failsAt: Option<Id>)
    requires Progress(q0, {}, done, failsAt)
    ensures Kept(q0, done) == Drained(q0, failsAt) && Given(q0, done) == DrainedTo(q0, failsAt)
  {
    hide Sendable, Malformed;
  }
}
