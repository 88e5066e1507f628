/** What every handler of the mailbox keeps, and what follows for whole runs. */
module MailboxProofs {
  import opened Sums
  import opened MailboxModel
  import Base64
  import Budgets

  // ---------------------------------------------------------------------------
  // What one handler does to the queue

  ghost predicate Sub(a: Queue, b: Queue) { forall id :: id in a ==> id in b && a[id] == b[id] }

  /** 30 days old. */
  ghost predicate Expired(row: Row, now: Time) { row.ts + 2_592_000_000 <= now }

  ghost predicate OwnerAcks(r: Room, e: Event, id: Id) { e.Ack? && e.id == id && e.ws in r.owners }

  /** The handler stores one new row under a fresh id and removes only expired ones. */
  ghost predicate Stores(r: Room, e: Event, now: Time, s: Room) {
    && e.Send? && SendOutcome(r, e.b64, now) == Sent(r.nextId)
    && s.q == Sweep(r, now).q[r.nextId := Row(e.b64, now, e.silent)]
    && s.nextId == r.nextId + 1
  }

  ghost predicate OnlyRemoves(r: Room, s: Room) { Sub(s.q, r.q) && s.nextId == r.nextId }

  lemma {:induction false} SendShape(r: Room, b64: string, silent: bool, deaf: set<Socket>, now: Time)
    ensures var s := DoSend(r, b64, silent, deaf, now);
      && s.claimed == r.claimed && s.clock == r.clock && s.owners == r.owners
      && (OnlyRemoves(r, s) || Stores(r, Send(b64, silent, deaf), now, s))
      && (SendOutcome(r, b64, now).Sent? ==> Stores(r, Send(b64, silent, deaf), now, s))
  {
    hide NextAlarm, Admits, AnyVisible, Base64.IsCanonicalBase64;
  }

  lemma {:induction false} DoShape(r: Room, e: Event, now: Time)
    ensures var s := Do(r, e, now);
      && s.clock == r.clock && (r.claimed ==> s.claimed)
      && (OnlyRemoves(r, s) || Stores(r, e, now, s))
  {
    hide NextAlarm, AnyVisible, Malformed, Sendable, DrainReaches, DoSend, SendOutcome, Wakes, IsSafeAckId;
    if e.Send? { SendShape(r, e.b64, e.silent, e.deaf, now); }
  }

  lemma {:induction false} DrainedLeaves(q: Queue, failsAt: Option<Id>, id: Id)
    requires id in q && Admissible(q[id].body)
    ensures id in Drained(q, failsAt)
  {
    hide Admissible;
  }

  /** A row leaves the queue only when it has expired, when the owner acknowledges
      its id, or when the drain finds it malformed. */
  lemma {:induction false} RowLeaves(r: Room, e: Event, now: Time, id: Id)
    requires id in r.q && id !in Do(r, e, now).q
    ensures Expired(r.q[id], now) || OwnerAcks(r, e, id) || (e.Auth? && !Admissible(r.q[id].body))
  {
    hide NextAlarm, AnyVisible, Drained, DrainReaches, Admits, IsSafeAckId, Admissible, Base64.IsCanonicalBase64, Wakes;
    if e.Auth? && !Expired(r.q[id], now) && Admissible(r.q[id].body) {
      DrainedLeaves(Sweep(r, now).q, e.failsAt, id);
    }
  }

  // ---------------------------------------------------------------------------
  // Rows and caps

  ghost predicate RowsOk(r: Room) {
    && r.nextId >= 1
    && forall id :: id in r.q ==> 1 <= id < r.nextId && Admissible(r.q[id].body) && r.q[id].ts <= r.clock
  }

  ghost predicate CapsOk(r: Room) {
    |r.q| <= MaxRows(r.claimed) && QueueBytes(r.q) <= MaxBytes(r.claimed)
  }

  lemma {:induction false} CanonicalShorter(b64: string, more: int, fewer: int)
    requires Base64.IsCanonicalBase64(b64, more, None) && |b64| <= fewer
    ensures Base64.IsCanonicalBase64(b64, fewer, None)
  {}

  lemma {:induction false} RowsKept(r: Room, s: Step)
    requires RowsOk(r)
    ensures RowsOk(Next(r, s))
  {
    hide Do, Admissible, Base64.IsCanonicalBase64;
    DoShape(r, s.event, s.now);
    if s.event.Send? && SendOutcome(r, s.event.b64, s.now) == Sent(r.nextId) {
      SentAdmissible(r, s.event.b64, s.now);
    }
  }

  lemma {:induction false} SentAdmissible(r: Room, b64: string, now: Time)
    requires SendOutcome(r, b64, now).Sent?
    ensures Admissible(b64)
    ensures Admits(ClearIfIdle(Sweep(r, now)), b64)
  {
    hide Base64.IsCanonicalBase64, Admits;
    CanonicalShorter(b64, Budgets.MAX_FRAME_CHARS, Budgets.MAX_MSG_B64);
  }

  lemma {:induction false} SubSmaller(a: Queue, b: Queue)
    requires Sub(a, b)
    ensures |a| <= |b| && QueueBytes(a) <= QueueBytes(b)
  {
    assert Lengths(a).Keys == a.Keys && Lengths(b).Keys == b.Keys;
    SumBelow(Lengths(a), Lengths(b));
  }

  lemma {:induction false} LengthsAdd(q: Queue, id: Id, row: Row)
    ensures Lengths(q[id := row]) == Lengths(q)[id := |row.body|]
  {}

  lemma {:induction false} StoredSize(q: Queue, id: Id, row: Row)
    requires id !in q
    ensures |q[id := row]| == |q| + 1 && QueueBytes(q[id := row]) == QueueBytes(q) + |row.body|
  {
    hide Sum;
    assert q[id := row].Keys == q.Keys + {id};
    LengthsAdd(q, id, row);
    SumPut(Lengths(q), id, |row.body|);
  }

  lemma {:induction false} CapsKept(r: Room, s: Step)
    requires RowsOk(r) && CapsOk(r)
    ensures CapsOk(Next(r, s))
  {
    hide Do, Admissible, Base64.IsCanonicalBase64, QueueBytes;
    var t := Do(r, s.event, s.now);
    DoShape(r, s.event, s.now);
    if OnlyRemoves(r, t) {
      SubSmaller(t.q, r.q);
    } else {
      var swept := Sweep(r, s.now);
      SentAdmissible(r, s.event.b64, s.now);
      SubSmaller(swept.q, r.q);
      StoredSize(swept.q, r.nextId, Row(s.event.b64, s.now, s.event.silent));
      assert ClearIfIdle(swept).q == swept.q;
      SendKeepsClaim(r, s.event.b64, s.event.silent, s.event.deaf, s.now);
    }
  }

  lemma {:induction false} SendKeepsClaim(r: Room, b64: string, silent: bool, deaf: set<Socket>, now: Time)
    ensures Do(r, Send(b64, silent, deaf), now).claimed == r.claimed
  {
    hide DoSend;
    SendShape(r, b64, silent, deaf, now);
  }

  lemma {:induction false} RunRowsOk(steps: seq<Step>)
    ensures RowsOk(Run(EMPTY_ROOM, steps)) && CapsOk(Run(EMPTY_ROOM, steps))
  {
    hide Next, RowsOk, CapsOk;
    if steps == [] {
      EmptyOk();
    } else {
      RunRowsOk(steps[..|steps| - 1]);
      RowsKept(Run(EMPTY_ROOM, steps[..|steps| - 1]), steps[|steps| - 1]);
      CapsKept(Run(EMPTY_ROOM, steps[..|steps| - 1]), steps[|steps| - 1]);
    }
  }

  lemma {:induction false} EmptyOk()
    ensures RowsOk(EMPTY_ROOM) && CapsOk(EMPTY_ROOM)
  {
    assert Lengths(EMPTY_ROOM.q) == map[];
  }

  /** In every run the queue stays within the caps of its regime: 256 rows and 2 MiB
      until an owner claims the inbox, 1000 rows and 20 MiB from then on. */
  lemma {:induction false} QueueBounded(steps: seq<Step>)
    ensures var r := Run(EMPTY_ROOM, steps);
      && |r.q| <= (if r.claimed then 1000 else 256)
      && QueueBytes(r.q) <= (if r.claimed then 20 * 1024 * 1024 else 2 * 1024 * 1024)
  {
    hide Run, RowsOk, QueueBytes;
    RunRowsOk(steps);
  }

  // ---------------------------------------------------------------------------
  // A stored message is not lost

  ghost function Before(steps: seq<Step>, m: nat): Room
    requires m <= |steps|
  {
    Run(EMPTY_ROOM, steps[..m])
  }

  lemma {:induction false} BeforeNext(steps: seq<Step>, m: nat)
    requires m < |steps|
    ensures Before(steps, m + 1) == Next(Before(steps, m), steps[m])
  {
    hide Next;
    assert steps[..m + 1][..m] == steps[..m];
  }

  /** The owner acknowledged `id` in step `m`, or by then the row was 30 days old. */
  ghost predicate Released(steps: seq<Step>, m: nat, id: Id, ts: Time)
    requires m < |steps|
  {
    OwnerAcks(Before(steps, m), steps[m].event, id) || ts + 2_592_000_000 <= steps[m].now
  }

  /** A row that was ever queued is still there, unchanged, unless the owner
      acknowledged its id or it reached its 30 days. */
  lemma {:induction false} StoredUntilReleased(steps: seq<Step>, i: nat, j: nat, id: Id)
    requires i <= j <= |steps| && id in Before(steps, i).q
    ensures var row := Before(steps, i).q[id];
      || (id in Before(steps, j).q && Before(steps, j).q[id] == row)
      || (exists m :: i <= m < j && Released(steps, m, id, row.ts))
    decreases j
  {
    hide Before, Next, RowsOk, Admissible, CapsOk;
    if i < j {
      StoredUntilReleased(steps, i, j - 1, id);
      var row := Before(steps, i).q[id];
      var r := Before(steps, j - 1);
      if id in r.q && r.q[id] == row {
        BeforeNext(steps, j - 1);
        BeforeRowsOk(steps, j - 1);
        RowStep(r, steps[j - 1], id);
        assert Released(steps, j - 1, id, row.ts) || (id in Before(steps, j).q && Before(steps, j).q[id] == row);
      }
    }
  }

  lemma {:induction false} BeforeRowsOk(steps: seq<Step>, m: nat)
    requires m <= |steps|
    ensures RowsOk(Before(steps, m))
  {
    RunRowsOk(steps[..m]);
  }

  lemma {:induction false} RowStep(r: Room, s: Step, id: Id)
    requires RowsOk(r) && id in r.q
    ensures (id in Next(r, s).q && Next(r, s).q[id] == r.q[id]) || OwnerAcks(r, s.event, id) || r.q[id].ts + 2_592_000_000 <= s.now
  {
    hide Do, Admissible;
    DoShape(r, s.event, s.now);
    if id !in Do(r, s.event, s.now).q { RowLeaves(r, s.event, s.now, id); }
  }

  /** A `sent` receipt means the frame is in the queue under a new id. */
  lemma {:induction false} ReceiptMeansStored(r: Room, s: Step)
    requires RowsOk(r) && s.now >= r.clock && s.event.Send? && SendOutcome(r, s.event.b64, s.now).Sent?
    ensures r.nextId !in r.q && r.nextId in Next(r, s).q
    ensures Next(r, s).q[r.nextId] == Row(s.event.b64, s.now, s.event.silent)
  {
    hide DoSend, SendOutcome;
    assert SendOutcome(r, s.event.b64, s.now) == Sent(r.nextId) by { SentFresh(r, s.event.b64, s.now); }
    SendShape(r, s.event.b64, s.event.silent, s.event.deaf, s.now);
  }

  lemma {:induction false} SentFresh(r: Room, b64: string, now: Time)
    requires SendOutcome(r, b64, now).Sent?
    ensures SendOutcome(r, b64, now) == Sent(r.nextId)
  {}

  /** The rows younger than 30 days. */
  function Live(q: Queue, now: Time): Queue { map id | id in q && now < q[id].ts + 2_592_000_000 :: q[id] }

  lemma {:induction false} SweepLeavesLive(r: Room, now: Time)
    ensures Sweep(r, now) == r.(q := Live(r.q, now))
  {}

  function BodySizes(q: Queue): map<Id, nat> { map id | id in q :: |q[id].body| }

  /** 256 rows and 2 MiB until the inbox is claimed, 1000 rows and 20 MiB from then on. */
  ghost predicate NoRoom(live: Queue, claimed: bool, more: nat) {
    || |live| >= (if claimed then 1000 else 256)
    || Sum(BodySizes(live)) + more > (if claimed then 20_971_520 else 2_097_152)
  }

  lemma {:induction false} AdmitsExactly(r: Room, b64: string, now: Time)
    ensures Admits(ClearIfIdle(Sweep(r, now)), b64) <==> !NoRoom(Live(r.q, now), r.claimed, |b64|)
  {
    hide AnyVisible;
    SweepLeavesLive(r, now);
    assert Lengths(Live(r.q, now)) == BodySizes(Live(r.q, now));
  }

  /** What a send is answered, and what it leaves in the queue. A frame is invalid exactly
      if it is not the encoding of some bytes in at most 1 208 192 characters, too large
      exactly if it has more than 1 200 000, refused as full exactly if the rows younger
      than 30 days leave no room; any other frame is stored under the next id. */
  lemma {:induction false} SendAnsweredExactly(r: Room, b64: string, silent: bool, deaf: set<Socket>, now: Time)
    ensures var o, q := SendOutcome(r, b64, now), Do(r, Send(b64, silent, deaf), now).q;
      && (o.Invalid? <==> !Base64.IsEncoding(b64, 1_208_192, None))
      && (o.TooLarge? <==> Base64.IsEncoding(b64, 1_208_192, None) && |b64| > 1_200_000)
      && (o.Full? <==> Base64.IsEncoding(b64, 1_200_000, None) && NoRoom(Live(r.q, now), r.claimed, |b64|))
      && (o.Sent? <==> Base64.IsEncoding(b64, 1_200_000, None) && !NoRoom(Live(r.q, now), r.claimed, |b64|))
      && q == match o
              case Full => Live(r.q, now)
              case Sent(id) => Live(r.q, now)[r.nextId := Row(b64, now, silent)]
              case _ => r.q
  {
    hide NextAlarm, Admits, AnyVisible, NoRoom, Base64.IsCanonicalBase64, Base64.IsEncoding;
    SweepLeavesLive(r, now);
    AdmitsExactly(r, b64, now);
    Base64.AcceptedExactlyEncodings(b64, 1_208_192, None);
    Base64.AcceptedExactlyEncodings(b64, 1_200_000, None);
    Shorter(b64);
  }

  lemma {:induction false} Shorter(b64: string)
    ensures Base64.IsEncoding(b64, 1_200_000, None) <==> Base64.IsEncoding(b64, 1_208_192, None) && |b64| <= 1_200_000
  {
    hide Base64.Encode;
    if Base64.IsEncoding(b64, 1_208_192, None) && |b64| <= 1_200_000 {
      var b :| b != [] && Base64.Encode(b) == b64;
      assert Base64.IsEncoding(b64, 1_200_000, None);
    }
  }

  /** Some open socket of an owner takes the frame. */
  predicate Listening(r: Room, deaf: set<Socket>) { exists ws :: ws in r.owners && ws in r.open && ws !in deaf }

  /** Who learns of a stored frame: an owner who listens is handed it at once; without one
      a frame that is not silent has the wake-up set, to three seconds from now unless it is
      already set for another waiting message; a silent frame never sets it. */
  lemma {:induction false} SentIsAnnounced(r: Room, b64: string, silent: bool, deaf: set<Socket>, now: Time)
    requires SendOutcome(r, b64, now).Sent?
    ensures var s, waiting := Do(r, Send(b64, silent, deaf), now), if AnyVisible(Live(r.q, now)) then r.pushDue else None;
      && s.handed == (if Listening(r, deaf) then r.handed + {r.nextId} else r.handed)
      && s.pushDue == (if Listening(r, deaf) || silent || waiting.Some? then waiting else Some(now + 3000))
  {
    hide NextAlarm, Admits, AnyVisible, Base64.IsCanonicalBase64;
    SweepLeavesLive(r, now);
    var online := r.owners * r.open - deaf;
    if Listening(r, deaf) {
      var ws :| ws in r.owners && ws in r.open && ws !in deaf;
      assert ws in online;
    } else {
      assert online == {};
    }
  }

  /** An id once assigned and no longer queued never comes back, so a late
      acknowledgement cannot remove another message. */
  lemma {:induction false} IdsNeverReused(steps: seq<Step>, i: nat, j: nat, id: Id)
    requires i <= j <= |steps| && id < Before(steps, i).nextId && id !in Before(steps, i).q
    ensures id !in Before(steps, j).q && id < Before(steps, j).nextId
    decreases j
  {
    hide Before, Next;
    if i < j {
      IdsNeverReused(steps, i, j - 1, id);
      BeforeNext(steps, j - 1);
      AbsentStays(Before(steps, j - 1), steps[j - 1], id);
    }
  }

  lemma {:induction false} AbsentStays(r: Room, s: Step, id: Id)
    requires id < r.nextId && id !in r.q
    ensures id !in Next(r, s).q && id < Next(r, s).nextId
  {
    hide Do;
    DoShape(r, s.event, s.now);
  }

  /** Acknowledging an id that is not queued leaves every row in place. */
  lemma {:induction false} LateAckHarmless(r: Room, ws: Socket, id: Id, now: Time)
    requires id !in r.q && r.clock <= now
    ensures Next(r, At(now, Ack(ws, id))).q == r.q
  {
    hide NextAlarm, AnyVisible;
    assert r.q - {id} == r.q;
  }

  /** Even with malformed legacy rows in the queue, the purge during an owner's
      drain removes no admissible row that has not expired. */
  lemma {:induction false} PurgeSparesAdmissible(r: Room, s: Step, id: Id)
    requires s.event.Auth? && id in r.q && Admissible(r.q[id].body) && !Expired(r.q[id], s.now)
    ensures id in Next(r, s).q && Next(r, s).q[id] == r.q[id]
  {
    hide Do, Admissible;
    DoShape(r, s.event, s.now);
    if id !in Do(r, s.event, s.now).q { RowLeaves(r, s.event, s.now, id); }
  }

  /** A completed drain leaves no malformed row with a usable id behind. */
  lemma {:induction false} DrainPurges(r: Room, ws: Socket, claimAllowed: bool, now: Time, id: Id)
    requires ws in r.open && r.clock <= now && id in r.q && IsSafeAckId(id) && !Admissible(r.q[id].body)
    ensures id !in Next(r, At(now, Auth(ws, true, claimAllowed, true, None))).q
  {
    hide NextAlarm, AnyVisible, Admissible;
  }

  /** An owner's acknowledgement removes exactly the row it names. */
  lemma {:induction false} AckRemoves(r: Room, ws: Socket, id: Id, now: Time)
    requires ws in r.owners && IsSafeAckId(id) && r.clock <= now
    ensures Next(r, At(now, Ack(ws, id))).q == r.q - {id}
  {
    hide NextAlarm, AnyVisible;
  }

  /** A stored frame that the owner then acknowledges leaves no trace in the queue. */
  lemma {:induction false} AckUndoesSend(r: Room, s: Step, ws: Socket, later: Time)
    requires RowsOk(r) && r.clock <= s.now && s.now <= later
    requires s.event.Send? && SendOutcome(r, s.event.b64, s.now).Sent? && ws in r.owners && r.nextId <= MAX_SAFE
    ensures Next(Next(r, s), At(later, Ack(ws, r.nextId))).q == Sweep(r, s.now).q
  {
    hide DoSend, SendOutcome;
    assert SendOutcome(r, s.event.b64, s.now) == Sent(r.nextId) by { SentFresh(r, s.event.b64, s.now); }
    SendShape(r, s.event.b64, s.event.silent, s.event.deaf, s.now);
    AckRemoves(Next(r, s), ws, r.nextId, later);
  }

  /** A completed drain hands every row it leaves, other than those whose id no
      acknowledgement could name, to the owner. */
  lemma {:induction false} DrainServesBacklog(r: Room, ws: Socket, claimAllowed: bool, now: Time, id: Id)
    requires ws in r.open && r.clock <= now && IsSafeAckId(id)
    requires id in Next(r, At(now, Auth(ws, true, claimAllowed, true, None))).q
    ensures id in Next(r, At(now, Auth(ws, true, claimAllowed, true, None))).handed
  {
    hide NextAlarm, AnyVisible, Admissible;
  }

  /** A row the owner can be sent and can acknowledge. */
  ghost predicate Deliverable(id: Id, row: Row) { 0 < id <= 0x1F_FFFF_FFFF_FFFF && Base64.IsEncoding(row.body, 1_200_000, None) }

  /** The drain comes to the row: no send before it, nor its own, throws. */
  ghost predicate Reached(live: Queue, failsAt: Option<Id>, id: Id) {
    id in live && (failsAt.Some? && failsAt.value in live && Deliverable(failsAt.value, live[failsAt.value]) ==> id < failsAt.value)
  }

  /** A drain, interrupted or not: of the rows younger than 30 days it hands over exactly
      the deliverable ones it reaches, and removes exactly those it reaches that could
      never be delivered though their ids could be acknowledged. */
  lemma {:induction false} DrainExactly(r: Room, ws: Socket, claimAllowed: bool, failsAt: Option<Id>, now: Time, id: Id)
    requires ws in r.open
    ensures var s, live := Do(r, Auth(ws, true, claimAllowed, true, failsAt), now), Live(r.q, now);
      && (id in s.handed <==> id in r.handed || (Reached(live, failsAt, id) && Deliverable(id, live[id])))
      && (id in s.q <==> id in live && !(Reached(live, failsAt, id) && !Deliverable(id, live[id]) && 0 < id <= 0x1F_FFFF_FFFF_FFFF))
      && (id in s.q ==> s.q[id] == r.q[id])
  {
    hide NextAlarm, AnyVisible, Admissible, Base64.IsEncoding;
    SweepLeavesLive(r.(claimed := r.claimed || claimAllowed, owners := r.owners + {ws}, pushDue := None), now);
    if id in r.q { AdmissibleIs(r.q[id].body); }
    if failsAt.Some? && failsAt.value in r.q { AdmissibleIs(r.q[failsAt.value].body); }
  }

  lemma {:induction false} AdmissibleIs(body: string)
    ensures Admissible(body) <==> Base64.IsEncoding(body, 1_200_000, None)
  {
    hide Base64.IsCanonicalBase64, Base64.IsEncoding;
    Base64.AcceptedExactlyEncodings(body, 1_200_000, None);
  }

  /** Connecting, sending a well-formed frame, a completed authentication and the alarm
      all leave no row behind that has reached its 30 days. */
  lemma {:induction false} ExpiredSwept(r: Room, s: Step, id: Id)
    requires s.now >= r.clock && id in Next(r, s).q
    requires
      || s.event.AlarmRings?
      || (s.event.Connect? && s.event.ws !in r.open && s.event.ws !in r.owners)
      || (s.event.Auth? && s.event.valid && s.event.authedOk && s.event.ws in r.open)
      || (s.event.Send? && (SendOutcome(r, s.event.b64, s.now).Full? || SendOutcome(r, s.event.b64, s.now).Sent?))
    ensures s.now < Next(r, s).q[id].ts + 2_592_000_000
  {
    hide NextAlarm, AnyVisible, Admits, Base64.IsCanonicalBase64, Malformed, DrainReaches, Sendable;
  }

  /** A valid authentication makes its socket an owner and, where a claim is allowed, claims
      the inbox for good; an invalid one changes nothing, and one whose acknowledgement
      cannot be sent leaves the queue alone. */
  lemma {:induction false} AuthenticationEffect(r: Room, e: Event, now: Time)
    requires e.Auth?
    ensures var s := Do(r, e, now);
      && (!e.valid ==> s == r)
      && (e.valid ==> s.owners == r.owners + {e.ws} && (s.claimed <==> r.claimed || e.claimAllowed))
      && (e.valid && !(e.authedOk && e.ws in r.open) ==> s.q == r.q && s.pushDue == r.pushDue && s.handed == r.handed)
  {
    hide NextAlarm, AnyVisible, Drained, DrainedTo;
  }

  /** Only a socket that passed authentication is ever treated as an owner. */
  lemma {:induction false} OwnersAuthenticated(steps: seq<Step>, ws: Socket)
    requires ws in Run(EMPTY_ROOM, steps).owners
    ensures exists m :: 0 <= m < |steps| && steps[m].event.Auth? && steps[m].event.ws == ws && steps[m].event.valid
  {
    hide Next;
    var rest, last := steps[..|steps| - 1], steps[|steps| - 1];
    var r := Run(EMPTY_ROOM, rest);
    if ws in r.owners {
      OwnersAuthenticated(rest, ws);
      var m :| 0 <= m < |rest| && rest[m].event.Auth? && rest[m].event.ws == ws && rest[m].event.valid;
      assert steps[m] == rest[m];
    } else {
      NewOwner(r, last, ws);
    }
  }

  lemma {:induction false} NewOwner(r: Room, s: Step, ws: Socket)
    requires ws !in r.owners && ws in Next(r, s).owners
    ensures s.event.Auth? && s.event.ws == ws && s.event.valid
  {
    hide NextAlarm, AnyVisible, DoSend, SendOutcome, Drained, DrainedTo, Wakes, IsSafeAckId;
    if s.event.Send? { SendShape(r, s.event.b64, s.event.silent, s.event.deaf, s.now); }
  }
}
