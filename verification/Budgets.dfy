/** The relay's fixed-window frame and byte budgets: the durable per-actor row of
    `RelayActorGuard` and the per-room `actor_window` table. */
module Budgets {
  import opened Sums

  const MINUTE_MS := 60_000
  const DAY_MS := 24 * 60 * 60 * 1000
  const MAX_MSG_B64 := 1_200_000
  const MAX_FRAME_CHARS := MAX_MSG_B64 + 8192

  datatype Caps = Caps(frames: nat, bytes: nat)

  const ACTOR_MINUTE := Caps(4096, 256 * 1024 * 1024)
  const ACTOR_DAY := Caps(200_000, 4 * 1024 * 1024 * 1024)
  const ROOM_MINUTE := Caps(800, 64 * 1024 * 1024)

  datatype Span = Minute | Day

  function Width(span: Span): nat { if span == Minute then MINUTE_MS else DAY_MS }

  /** The start of the aligned window that holds `t`. */
  function Start(t: nat, span: Span): nat {
    if span == Minute then t / MINUTE_MS * MINUTE_MS else t / DAY_MS * DAY_MS
  }

  datatype Frame = Frame(time: nat, bytes: nat)

  type History = seq<Frame>

  ghost predicate Ordered(cs: History) {
    forall i, j :: 0 <= i <= j < |cs| ==> cs[i].time <= cs[j].time
  }

  function Last(cs: History): Frame
    requires cs != []
  {
    cs[|cs| - 1]
  }

  function Init(cs: History): History
    requires cs != []
  {
    cs[..|cs| - 1]
  }

  lemma {:induction false} OrderedInit(cs: History)
    requires Ordered(cs) && cs != []
    ensures Ordered(Init(cs))
    ensures forall i :: 0 <= i < |cs| ==> cs[i].time <= Last(cs).time
  {}

  // ---------------------------------------------------------------------------
  // What a history says, without any stored counter

  /** The charges of a history that fall in the window starting at `start`. */
  function Frames(cs: History, span: Span, start: nat): nat {
    if cs == [] then 0 else Frames(Init(cs), span, start) + if Start(Last(cs).time, span) == start then 1 else 0
  }

  function Bytes(cs: History, span: Span, start: nat): nat {
    if cs == [] then 0 else Bytes(Init(cs), span, start) + if Start(Last(cs).time, span) == start then Last(cs).bytes else 0
  }

  predicate WithinCaps(cs: History, span: Span, start: nat, caps: Caps) {
    Frames(cs, span, start) <= caps.frames && Bytes(cs, span, start) <= caps.bytes
  }

  // ---------------------------------------------------------------------------
  // The stored counters

  datatype Window = Window(start: nat, frames: nat, bytes: nat)

  function Bump(w: Option<Window>, start: nat, bytes: nat): Window {
    if w.Some? && w.value.start == start then Window(start, w.value.frames + 1, w.value.bytes + bytes)
    else Window(start, 1, bytes)
  }

  predicate Fits(w: Window, caps: Caps) { w.frames <= caps.frames && w.bytes <= caps.bytes }

  datatype Budget = Budget(minute: Window, day: Window)

  function Charged(b: Option<Budget>, c: Frame): Budget {
    Budget(
      Bump(if b.Some? then Some(b.value.minute) else None, Start(c.time, Minute), c.bytes),
      Bump(if b.Some? then Some(b.value.day) else None, Start(c.time, Day), c.bytes))
  }

  predicate Allows(b: Budget) { Fits(b.minute, ACTOR_MINUTE) && Fits(b.day, ACTOR_DAY) }

  /** The row after a history of charges; refused ones are counted too. */
  function After(cs: History): Option<Budget> {
    if cs == [] then None else Some(Charged(After(Init(cs)), Last(cs)))
  }

  /** The answer to the last charge of a history. */
  predicate Answer(cs: History)
    requires cs != []
  {
    Allows(After(cs).value)
  }

  class RelayActorGuard {
    var budget: Option<Budget>

    constructor ()
      ensures budget == None
    {
      budget := None;
    }

    /** A size outside the frame limit is refused and leaves no trace; any other
        charge is counted, accepted or not. */
    method Charge(bytes: int, now: nat) returns (ok: bool)
      modifies this
      ensures bytes < 0 || bytes > 1_208_192 ==> !ok && budget == old(budget)
      ensures 0 <= bytes <= 1_208_192 ==>
        budget == Some(Charged(old(budget), Frame(now, bytes))) && ok == Allows(budget.value)
    {
      if bytes < 0 || bytes > MAX_FRAME_CHARS { return false; }
      var minuteStart, dayStart := now / MINUTE_MS * MINUTE_MS, now / DAY_MS * DAY_MS;
      if budget == None {
        budget := Some(Budget(Window(minuteStart, 0, 0), Window(dayStart, 0, 0)));
      }
      var current := budget.value;
      var minuteFrames := (if current.minute.start == minuteStart then current.minute.frames else 0) + 1;
      var minuteBytes := (if current.minute.start == minuteStart then current.minute.bytes else 0) + bytes;
      var dayFrames := (if current.day.start == dayStart then current.day.frames else 0) + 1;
      var dayBytes := (if current.day.start == dayStart then current.day.bytes else 0) + bytes;
      budget := Some(Budget(Window(minuteStart, minuteFrames, minuteBytes), Window(dayStart, dayFrames, dayBytes)));
      ok := minuteFrames <= ACTOR_MINUTE.frames && minuteBytes <= ACTOR_MINUTE.bytes
         && dayFrames <= ACTOR_DAY.frames && dayBytes <= ACTOR_DAY.bytes;
    }
  }

  // ---------------------------------------------------------------------------
  // The counters are the history

  lemma {:induction false} StartMonotone(t: nat, u: nat, span: Span)
    requires t <= u
    ensures Start(t, span) <= Start(u, span) <= u < Start(u, span) + Width(span)
  {}

  lemma {:induction false} NothingLater(cs: History, span: Span, start: nat)
    requires forall i :: 0 <= i < |cs| ==> Start(cs[i].time, span) < start
    ensures Frames(cs, span, start) == 0 && Bytes(cs, span, start) == 0
  {
    if cs != [] { NothingLater(Init(cs), span, start); }
  }

  /** One window counter, bumped through a history, holds the totals of the
      window the last charge fell in. */
  lemma {:induction false} BumpExact(cs: History, span: Span, w: Option<Window>)
    requires Ordered(cs) && cs != []
    requires |cs| == 1 ==> w == None
    requires |cs| > 1 ==> var s := Start(Last(Init(cs)).time, span);
      w == Some(Window(s, Frames(Init(cs), span, s), Bytes(Init(cs), span, s)))
    ensures var s := Start(Last(cs).time, span);
      Bump(w, s, Last(cs).bytes) == Window(s, Frames(cs, span, s), Bytes(cs, span, s))
  {
    var s := Start(Last(cs).time, span);
    if |cs| > 1 {
      var before := Start(Last(Init(cs)).time, span);
      StartMonotone(Last(Init(cs)).time, Last(cs).time, span);
      if before != s {
        forall i | 0 <= i < |Init(cs)| ensures Start(Init(cs)[i].time, span) < s {
          StartMonotone(Init(cs)[i].time, Last(Init(cs)).time, span);
        }
        NothingLater(Init(cs), span, s);
      }
    }
  }

  lemma {:induction false} CountersExact(cs: History)
    requires Ordered(cs) && cs != []
    ensures After(cs).Some?
    ensures var s := Start(Last(cs).time, Minute);
      After(cs).value.minute == Window(s, Frames(cs, Minute, s), Bytes(cs, Minute, s))
    ensures var s := Start(Last(cs).time, Day);
      After(cs).value.day == Window(s, Frames(cs, Day, s), Bytes(cs, Day, s))
  {
    var b := After(Init(cs));
    if |cs| > 1 { CountersExact(Init(cs)); }
    BumpExact(cs, Minute, if b.Some? then Some(b.value.minute) else None);
    BumpExact(cs, Day, if b.Some? then Some(b.value.day) else None);
  }

  /** A charge is accepted exactly when the totals of its minute and of its day, itself
      included, are within 4096 frames and 256 MiB, and 200 000 frames and 4 GiB. */
  lemma {:induction false} AnswerExact(cs: History)
    requires Ordered(cs) && cs != []
    ensures Answer(cs) <==>
      && WithinCaps(cs, Minute, Last(cs).time / 60_000 * 60_000, Caps(4096, 268_435_456))
      && WithinCaps(cs, Day, Last(cs).time / 86_400_000 * 86_400_000, Caps(200_000, 4_294_967_296))
  {
    CountersExact(cs);
  }

  lemma {:induction false} WindowStarts(t: nat)
    ensures Start(t, Minute) == t / 60_000 * 60_000 && Start(t, Day) == t / 86_400_000 * 86_400_000
  {}

  // ---------------------------------------------------------------------------
  // Limits over whole histories

  /** Accepted charges whose window starts at `start`. */
  function Accepted(cs: History, span: Span, start: nat): Caps {
    if cs == [] then Caps(0, 0) else
      var before := Accepted(Init(cs), span, start);
      if Start(Last(cs).time, span) == start && Answer(cs) then Caps(before.frames + 1, before.bytes + Last(cs).bytes)
      else before
  }

  lemma {:induction false} AcceptedAmongAll(cs: History, span: Span, start: nat)
    ensures Accepted(cs, span, start).frames <= Frames(cs, span, start)
    ensures Accepted(cs, span, start).bytes <= Bytes(cs, span, start)
  {
    hide Answer, After, Start;
    if cs != [] { AcceptedAmongAll(Init(cs), span, start); }
  }

  function ActorCaps(span: Span): Caps {
    if span == Minute then Caps(4096, 268_435_456) else Caps(200_000, 4_294_967_296)
  }

  /** Whatever is sent and whenever, the accepted frames and bytes of every aligned
      minute and day stay within the caps. */
  lemma {:induction false} WindowNeverExceeded(cs: History, span: Span, start: nat)
    requires Ordered(cs)
    ensures Accepted(cs, span, start).frames <= ActorCaps(span).frames
    ensures Accepted(cs, span, start).bytes <= ActorCaps(span).bytes
  {
    hide Start;
    if cs != [] {
      OrderedInit(cs);
      WindowNeverExceeded(Init(cs), span, start);
      if Start(Last(cs).time, span) == start && Answer(cs) {
        AnswerExact(cs);
        WindowStarts(Last(cs).time);
        AcceptedAmongAll(cs, span, start);
      }
    }
  }

  lemma {:induction false} CountsGrow(cs: History, k: nat, span: Span, start: nat)
    requires k <= |cs|
    ensures Frames(cs[..k], span, start) <= Frames(cs, span, start)
    ensures Bytes(cs[..k], span, start) <= Bytes(cs, span, start)
  {
    if k < |cs| {
      CountsGrow(Init(cs), k, span, start);
      assert Init(cs)[..k] == cs[..k];
    } else {
      assert cs[..k] == cs;
    }
  }

  lemma {:induction false} SameWindow(t: nat, u: nat, span: Span)
    requires t <= u < Start(t, span) + Width(span)
    ensures Start(u, span) == Start(t, span)
  {}

  /** Once a minute or a day is over its caps, every later charge of that window is
      refused, until the window ends. */
  lemma {:induction false} RefusedUntilWindowEnds(cs: History, k: nat, span: Span)
    requires Ordered(cs) && 0 < k <= |cs|
    requires !WithinCaps(cs[..k], span, Start(cs[k - 1].time, span), ActorCaps(span))
    requires Last(cs).time < Start(cs[k - 1].time, span) + Width(span)
    ensures !Answer(cs)
  {
    var s := Start(cs[k - 1].time, span);
    SameWindow(cs[k - 1].time, Last(cs).time, span);
    hide Start, Frames, Bytes, Answer;
    CountsGrow(cs, k, span, s);
    AnswerExact(cs);
    WindowStarts(Last(cs).time);
  }

  /** Accepted charges in the sliding minute that starts at `t`. */
  function AcceptedFrom(cs: History, t: nat): Caps {
    if cs == [] then Caps(0, 0) else
      var before := AcceptedFrom(Init(cs), t);
      if t <= Last(cs).time < t + 60_000 && Answer(cs) then Caps(before.frames + 1, before.bytes + Last(cs).bytes)
      else before
  }

  lemma {:induction false} SpanInTwoWindows(cs: History, t: nat)
    ensures var s := Start(t, Minute);
      && AcceptedFrom(cs, t).frames <= Accepted(cs, Minute, s).frames + Accepted(cs, Minute, s + MINUTE_MS).frames
      && AcceptedFrom(cs, t).bytes <= Accepted(cs, Minute, s).bytes + Accepted(cs, Minute, s + MINUTE_MS).bytes
  {
    hide Answer, After;
    if cs != [] { SpanInTwoWindows(Init(cs), t); }
  }

  /** Any sixty seconds, aligned or not, admit at most twice the minute caps. */
  lemma {:induction false} AnyMinuteAtMostTwice(cs: History, t: nat)
    requires Ordered(cs)
    ensures AcceptedFrom(cs, t).frames <= 2 * 4096
    ensures AcceptedFrom(cs, t).bytes <= 2 * 268_435_456
  {
    var s := Start(t, Minute);
    SpanInTwoWindows(cs, t);
    WindowNeverExceeded(cs, Minute, s);
    WindowNeverExceeded(cs, Minute, s + MINUTE_MS);
  }

  // ---------------------------------------------------------------------------
  // The per-room table and its pruning

  type Actor = nat

  datatype RoomCharge = RoomCharge(actor: Actor, charge: Frame)
  datatype RoomWindow = RoomWindow(window: Window, updatedAt: nat)

  type Table = map<Actor, RoomWindow>

  function RowOf(t: Table, a: Actor): Option<Window> {
    if a in t then Some(t[a].window) else None
  }

  function Upsert(t: Table, e: RoomCharge): Table {
    t[e.actor := RoomWindow(Bump(RowOf(t, e.actor), Start(e.charge.time, Minute), e.charge.bytes), e.charge.time)]
  }

  function Pruned(t: Table, now: nat): Table {
    map a | a in t && !(t[a].updatedAt <= now - 2 * MINUTE_MS) :: t[a]
  }

  function Tables(es: seq<RoomCharge>, prune: bool): Table {
    if es == [] then map[] else
      var e := es[|es| - 1];
      var t := Upsert(Tables(es[..|es| - 1], prune), e);
      if prune then Pruned(t, e.charge.time) else t
  }

  /** The answer to the last charge. */
  predicate RoomAnswer(es: seq<RoomCharge>, prune: bool)
    requires es != []
  {
    var e := es[|es| - 1];
    Fits(Upsert(Tables(es[..|es| - 1], prune), e)[e.actor].window, ROOM_MINUTE)
  }

  class ActorWindows {
    var rows: Table

    constructor ()
      ensures rows == map[]
    {
      rows := map[];
    }

    method ChargeRoomActor(actor: Actor, bytes: nat, now: nat) returns (ok: bool)
      modifies this
      ensures var e := RoomCharge(actor, Frame(now, bytes));
        && rows == Pruned(Upsert(old(rows), e), now)
        && ok == Fits(Upsert(old(rows), e)[actor].window, ROOM_MINUTE)
    {
      var windowStart := now / MINUTE_MS * MINUTE_MS;
      var live := actor in rows && rows[actor].window.start == windowStart;
      var frames := (if live then rows[actor].window.frames else 0) + 1;
      var totalBytes := (if live then rows[actor].window.bytes else 0) + bytes;
      rows := rows[actor := RoomWindow(Window(windowStart, frames, totalBytes), now)];
      rows := map a | a in rows && !(rows[a].updatedAt <= now - 2 * MINUTE_MS) :: rows[a];
      ok := frames <= ROOM_MINUTE.frames && totalBytes <= ROOM_MINUTE.bytes;
    }
  }

  ghost predicate RoomOrdered(es: seq<RoomCharge>) {
    forall i, j :: 0 <= i <= j < |es| ==> es[i].charge.time <= es[j].charge.time
  }

  /** The charges of one actor. */
  function Of(es: seq<RoomCharge>, a: Actor): History {
    if es == [] then [] else
      Of(es[..|es| - 1], a) + if es[|es| - 1].actor == a then [es[|es| - 1].charge] else []
  }

  lemma {:induction false} OfOrdered(es: seq<RoomCharge>, a: Actor)
    requires RoomOrdered(es)
    ensures Ordered(Of(es, a))
    ensures forall i :: 0 <= i < |Of(es, a)| ==> Of(es, a)[i].time <= es[|es| - 1].charge.time
  {
    if es != [] {
      var rest := es[..|es| - 1];
      OfOrdered(rest, a);
      if rest != [] { assert rest[|rest| - 1] == es[|es| - 2]; }
    }
  }

  /** What the row of an actor would be without pruning: the totals of the last
      window the actor was active in. */
  function FullRow(cs: History): RoomWindow
    requires cs != []
  {
    var s := Start(Last(cs).time, Minute);
    RoomWindow(Window(s, Frames(cs, Minute, s), Bytes(cs, Minute, s)), Last(cs).time)
  }

  /** Every row is exact, and a missing row is one whose window is long over. */
  ghost predicate TableOk(es: seq<RoomCharge>, t: Table, prune: bool, a: Actor) {
    && (a in t ==> Of(es, a) != [] && t[a] == FullRow(Of(es, a)))
    && (a !in t && Of(es, a) != [] ==> prune && es != [] && Last(Of(es, a)).time + 2 * MINUTE_MS <= es[|es| - 1].charge.time)
  }

  /** The row written for a charge is exact even when its previous row was pruned. */
  lemma {:induction false} UpsertExact(es: seq<RoomCharge>, t: Table, prune: bool)
    requires RoomOrdered(es) && es != []
    requires TableOk(es[..|es| - 1], t, prune, es[|es| - 1].actor)
    ensures var e := es[|es| - 1]; Upsert(t, e)[e.actor] == FullRow(Of(es, e.actor))
  {
    var e, rest := es[|es| - 1], es[..|es| - 1];
    var cs := Of(es, e.actor);
    OfOrdered(es, e.actor);
    OfOrdered(rest, e.actor);
    assert Init(cs) == Of(rest, e.actor) && Last(cs) == e.charge;
    if e.actor in t || Init(cs) == [] {
      BumpExact(cs, Minute, RowOf(t, e.actor));
    } else {
      var s := Start(e.charge.time, Minute);
      assert Last(Init(cs)).time + 2 * MINUTE_MS <= e.charge.time;
      forall i | 0 <= i < |Init(cs)| ensures Start(Init(cs)[i].time, Minute) < s {
        StartMonotone(Init(cs)[i].time, Last(Init(cs)).time, Minute);
      }
      NothingLater(Init(cs), Minute, s);
    }
  }

  lemma {:induction false} TablesOk(es: seq<RoomCharge>, prune: bool, a: Actor)
    requires RoomOrdered(es)
    ensures TableOk(es, Tables(es, prune), prune, a)
  {
    if es != [] {
      var e, rest := es[|es| - 1], es[..|es| - 1];
      TablesOk(rest, prune, a);
      if a == e.actor {
        UpsertExact(es, Tables(rest, prune), prune);
      } else {
        OfOrdered(es, a);
        assert Of(es, a) == Of(rest, a);
        hide Frames, Bytes, Of, FullRow;
        if rest != [] { assert rest[|rest| - 1] == es[|es| - 2]; }
        if Of(es, a) != [] { UpdatedAt(Of(es, a)); }
      }
    }
  }

  lemma {:induction false} UpdatedAt(cs: History)
    requires cs != []
    ensures FullRow(cs).updatedAt == Last(cs).time
  {}

  /** A frame is accepted in a room exactly when its actor's frames and bytes of the
      current minute are within 800 and 64 MiB. */
  lemma {:induction false} RoomAnswerExact(es: seq<RoomCharge>, prune: bool)
    requires RoomOrdered(es) && es != []
    ensures var e := es[|es| - 1];
      RoomAnswer(es, prune) <==>
        WithinCaps(Of(es, e.actor), Minute, e.charge.time / 60_000 * 60_000, Caps(800, 67_108_864))
  {
    var e := es[|es| - 1];
    TablesOk(es[..|es| - 1], prune, e.actor);
    UpsertExact(es, Tables(es[..|es| - 1], prune), prune);
    assert Last(Of(es, e.actor)) == e.charge;
  }

  /** Pruning rows untouched for two minutes never changes an answer. */
  lemma {:induction false} PruningInvisible(es: seq<RoomCharge>)
    requires RoomOrdered(es) && es != []
    ensures RoomAnswer(es, true) == RoomAnswer(es, false)
  {
    hide RoomAnswer, Of;
    RoomAnswerExact(es, true);
    RoomAnswerExact(es, false);
  }

  /** And it keeps the table to the actors of the last two minutes. */
  lemma {:induction false} PrunedTableRecent(es: seq<RoomCharge>, a: Actor)
    requires RoomOrdered(es) && es != [] && a in Tables(es, true)
    ensures Of(es, a) != [] && es[|es| - 1].charge.time < Last(Of(es, a)).time + 120_000
  {
    TablesOk(es, true, a);
    UpdatedAt(Of(es, a));
  }
}
