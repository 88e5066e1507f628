/** The relay mailbox of one inbox (`RelayRoom`): a durable queue with two cap
    regimes, a 30-day expiry, owner acknowledgements, and one alarm that serves two
    deadlines. Every handler is one atomic step, except around the push requests. */
module MailboxModel {
  import opened Sums
  import Base64
  import Budgets

  const MAX_QUEUE := 1000
  const MAX_QUEUE_B64 := 20 * 1024 * 1024
  const MAX_QUEUE_UNCLAIMED := 256
  const MAX_QUEUE_B64_UNCLAIMED := 2 * 1024 * 1024
  const QUEUE_TTL_MS := 30 * 24 * 60 * 60 * 1000
  const PUSH_COALESCE_MS := 3000
  const MAX_SAFE := 0x1F_FFFF_FFFF_FFFF
  // The largest value `Date.now()` can return (ECMAScript time values).
  const MAX_TIME := 8_640_000_000_000_000

  type Time = t: int | 0 <= t <= MAX_TIME
  type Deadline = t: int | 0 <= t <= MAX_TIME + QUEUE_TTL_MS
  type Id = nat
  type Socket = nat

  datatype Row = Row(body: string, ts: Time, silent: bool)

  type Queue = map<Id, Row>

  /** The room's storage, its sockets and the platform alarm. `owners` are the
      sockets whose attachment says `owner: true`, `open` those `getWebSockets`
      lists; `handlers` counts alarm handlers waiting for push requests. The last
      three fields are history: rows handed to an owner socket, rows that were
      queued when a wake-up was sent, and the times of the wake-ups. */
  datatype Room = Room(
    q: Queue,
    nextId: Id,
    claimed: bool,
    pushDue: Option<Deadline>,
    alarm: Option<Deadline>,
    owners: set<Socket>,
    open: set<Socket>,
    handlers: nat,
    clock: Time,
    handed: set<Id>,
    woken: set<Id>,
    notices: seq<Time>)

  const EMPTY_ROOM := Room(map[], 1, false, None, None, {}, {}, 0, 0, {}, {}, [])

  // ---------------------------------------------------------------------------
  // Queries

  predicate IsSafeInteger(v: int) { -MAX_SAFE <= v <= MAX_SAFE }

  predicate IsSafeAckId(id: Id) { 0 < id <= MAX_SAFE }

  predicate Admissible(body: string) { Base64.IsCanonicalBase64(body, Budgets.MAX_MSG_B64, None) }

  predicate AnyVisible(q: Queue) { exists id :: id in q && !q[id].silent }

  function Visible(q: Queue): set<Id> { set id | id in q && !q[id].silent }

  predicate OwnerOnline(r: Room) { r.owners * r.open != {} }

  function Lengths(q: Queue): map<Id, nat> { map id | id in q :: |q[id].body| }

  ghost function QueueBytes(q: Queue): nat { Sum(Lengths(q)) }

  function MaxRows(claimed: bool): nat { if claimed then MAX_QUEUE else MAX_QUEUE_UNCLAIMED }

  function MaxBytes(claimed: bool): nat { if claimed then MAX_QUEUE_B64 else MAX_QUEUE_B64_UNCLAIMED }

  predicate IsOldest(q: Queue, k: Id) { k in q && forall j :: j in q ==> q[k].ts <= q[j].ts }

  lemma {:induction false} OldestExists(q: Queue)
    requires q != map[]
    ensures exists k :: IsOldest(q, k)
    decreases |q|
  {
    var k :| k in q;
    var rest := q - {k};
    assert rest.Keys == q.Keys - {k};
    assert forall j :: j in q ==> j == k || (j in rest && rest[j] == q[j]);
    if rest == map[] {
      assert IsOldest(q, k);
    } else {
      OldestExists(rest);
      var j :| IsOldest(rest, j);
      assert IsOldest(q, if q[j].ts <= q[k].ts then j else k);
    }
  }

  /** `SELECT MIN(ts) FROM q`. */
  ghost function Oldest(q: Queue): (o: Option<Time>)
    ensures o.None? <==> q == map[]
    ensures o.Some? ==> exists k :: IsOldest(q, k) && o.value == q[k].ts
  {
    if q == map[] then None else
      OldestExists(q);
      var k :| IsOldest(q, k);
      Some(q[k].ts)
  }

  function ExpiryOf(o: Option<Time>): Option<Deadline> {
    if o.Some? && IsSafeInteger(o.value + QUEUE_TTL_MS) then Some(o.value + QUEUE_TTL_MS) else None
  }

  /** `earliestTimestamp`: unusable values are skipped. */
  function EarliestTimestamp(vs: seq<Option<Deadline>>): Option<Deadline> {
    if vs == [] then None else
      var e, v := EarliestTimestamp(vs[..|vs| - 1]), vs[|vs| - 1];
      if v.None? || !IsSafeInteger(v.value) || v.value < 0 then e
      else if e.None? || v.value < e.value then v
      else e
  }

  ghost function NextAlarm(r: Room): Option<Deadline> {
    EarliestTimestamp([r.pushDue, ExpiryOf(Oldest(r.q))])
  }

  // ---------------------------------------------------------------------------
  // The pieces handlers are made of

  function Sweep(r: Room, now: Time): Room {
    r.(q := map id | id in r.q && !(r.q[id].ts <= now - QUEUE_TTL_MS) :: r.q[id])
  }

  function ClearIfIdle(r: Room): Room { if AnyVisible(r.q) then r else r.(pushDue := None) }

  ghost function Schedule(r: Room): Room { r.(alarm := NextAlarm(r)) }

  function Arm(r: Room, now: Time): Room {
    if r.pushDue.Some? then r else r.(pushDue := Some(now + PUSH_COALESCE_MS))
  }

  ghost predicate Admits(r: Room, body: string) {
    |r.q| < MaxRows(r.claimed) && QueueBytes(r.q) + |body| <= MaxBytes(r.claimed)
  }

  function Insert(r: Room, body: string, silent: bool, now: Time): Room {
    r.(q := r.q[r.nextId := Row(body, now, silent)], nextId := r.nextId + 1)
  }

  predicate Sendable(id: Id, row: Row) { IsSafeAckId(id) && Admissible(row.body) }

  predicate Malformed(id: Id, row: Row) { IsSafeAckId(id) && !Admissible(row.body) }

  /** The drain stops at the row whose send throws. */
  predicate DrainReaches(q: Queue, failsAt: Option<Id>, id: Id) {
    failsAt.Some? && failsAt.value in q && Sendable(failsAt.value, q[failsAt.value]) ==> id < failsAt.value
  }

  function Drained(q: Queue, failsAt: Option<Id>): Queue {
    map id | id in q && !(DrainReaches(q, failsAt, id) && Malformed(id, q[id])) :: q[id]
  }

  function DrainedTo(q: Queue, failsAt: Option<Id>): set<Id> {
    set id | id in q && DrainReaches(q, failsAt, id) && Sendable(id, q[id])
  }

  // ---------------------------------------------------------------------------
  // Handlers

  /** `deaf` holds the sockets on which `send` throws during the step; `failsAt` is
      the queued row whose send throws while the backlog is drained. */
  datatype Event =
    | Connect(ws: Socket)
    | Close(ws: Socket)
    | Auth(ws: Socket, valid: bool, claimAllowed: bool, authedOk: bool, failsAt: Option<Id>)
    | Send(b64: string, silent: bool, deaf: set<Socket>)
    | Ack(ws: Socket, id: Id)
    | AlarmRings
    | AlarmEnds
    | Restart

  datatype Outcome = Invalid | TooLarge | Full | Sent(id: Id)

  ghost function DoConnect(r: Room, ws: Socket, now: Time): Room {
    if ws in r.open || ws in r.owners then r
    else Schedule(ClearIfIdle(Sweep(r, now))).(open := r.open + {ws})
  }

  ghost function SendOutcome(r: Room, b64: string, now: Time): Outcome {
    if !Base64.IsCanonicalBase64(b64, Budgets.MAX_FRAME_CHARS, None) then Invalid
    else if |b64| > Budgets.MAX_MSG_B64 then TooLarge
    else if !Admits(ClearIfIdle(Sweep(r, now)), b64) then Full
    else Sent(r.nextId)
  }

  /** An admitted frame: stored, then offered to every open owner socket. */
  ghost function Deliver(r: Room, b64: string, silent: bool, deaf: set<Socket>, now: Time): Room {
    var t := Insert(r, b64, silent, now);
    var live := t.owners * t.open - deaf != {};
    var h := if live then t.(handed := t.handed + {r.nextId}) else t;
    Schedule(if !live && !silent then Arm(h, now) else h)
  }

  ghost function DoSend(r: Room, b64: string, silent: bool, deaf: set<Socket>, now: Time): Room {
    var outcome := SendOutcome(r, b64, now);
    if outcome == Invalid || outcome == TooLarge then r
    else
      var s := ClearIfIdle(Sweep(r, now));
      if outcome == Full then s else Deliver(s, b64, silent, deaf, now)
  }

  ghost function Drain(r: Room, failsAt: Option<Id>, now: Time): Room {
    var d := Sweep(r.(pushDue := None), now);
    Schedule(ClearIfIdle(d.(q := Drained(d.q, failsAt), handed := d.handed + DrainedTo(d.q, failsAt))))
  }

  ghost function DoAuth(r: Room, ws: Socket, valid: bool, claimAllowed: bool, authedOk: bool, failsAt: Option<Id>, now: Time): Room {
    if !valid then r else
      var o := r.(claimed := r.claimed || claimAllowed, owners := r.owners + {ws});
      if !authedOk || ws !in r.open then o else Drain(o, failsAt, now)
  }

  ghost function DoAck(r: Room, ws: Socket, id: Id): Room {
    if !IsSafeAckId(id) || ws !in r.owners then r
    else Schedule(ClearIfIdle(r.(q := r.q - {id})))
  }

  predicate Wakes(r: Room, now: Time) {
    r.pushDue.Some? && r.pushDue.value <= now && AnyVisible(r.q) && !OwnerOnline(r)
  }

  ghost function DoAlarm(r: Room, now: Time): Room {
    var s := Sweep(r, now).(alarm := None);
    if Wakes(s, now) then
      s.(pushDue := None, handlers := s.handlers + 1, woken := s.woken + Visible(s.q), notices := s.notices + [now])
    else if s.pushDue.Some? && s.pushDue.value <= now then Schedule(ClearIfIdle(s.(pushDue := None)))
    else Schedule(ClearIfIdle(s))
  }

  ghost function DoAlarmEnds(r: Room): Room {
    if r.handlers == 0 then r else Schedule(ClearIfIdle(r)).(handlers := r.handlers - 1)
  }

  /** No handler survives a restart. */
  ghost function DoRestart(r: Room): Room {
    var s := r.(handlers := 0);
    if r.alarm == None then Schedule(s) else s
  }

  ghost function Do(r: Room, e: Event, now: Time): Room {
    match e
    case Connect(ws) => DoConnect(r, ws, now)
    case Close(ws) => r.(open := r.open - {ws})
    case Auth(ws, valid, claimAllowed, authedOk, failsAt) => DoAuth(r, ws, valid, claimAllowed, authedOk, failsAt, now)
    case Send(b64, silent, deaf) => DoSend(r, b64, silent, deaf, now)
    case Ack(ws, id) => DoAck(r, ws, id)
    case AlarmRings => DoAlarm(r, now)
    case AlarmEnds => DoAlarmEnds(r)
    case Restart => DoRestart(r)
  }

  datatype Step = At(now: Time, event: Event)

  /** A step earlier than the clock does not happen. */
  ghost function Next(r: Room, s: Step): Room {
    if s.now < r.clock then r else Do(r, s.event, s.now).(clock := s.now)
  }

  ghost function Run(r: Room, steps: seq<Step>): Room {
    if steps == [] then r else Next(Run(r, steps[..|steps| - 1]), steps[|steps| - 1])
  }
}
