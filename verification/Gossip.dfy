/** Device-list gossip: which list is mine, which version each peer device has
    acknowledged, and whom the list is still offered to. */
module Gossip {
  import opened Sums

  const GOSSIP_COOLDOWN_MS := 30_000
  const GOSSIP_MAX_BACKOFF_MS := 60 * 60_000

  /** A JavaScript value in the place of a number: what `Number(...)` returns for a
      received field, or the `null` that JSON makes of a stored NaN or infinity. */
  datatype Num = NaN | NegInf | PosInf | Null | Fin(value: real)

  /** `===` */
  predicate Same(a: Num, b: Num) { a == b && !a.NaN? }

  function Numeric(a: Num): real { if a.Fin? then a.value else 0.0 }

  /** `<`, where `null` counts as 0 */
  predicate Lt(a: Num, b: Num) {
    if a.NaN? || b.NaN? then false
    else if a.NegInf? || b.PosInf? then a != b
    else if b.NegInf? || a.PosInf? then false
    else Numeric(a) < Numeric(b)
  }

  datatype Version = Version(epoch: Num, version: Num)

  predicate Finite(v: Version) { v.epoch.Fin? && v.version.Fin? }

  /** The version of a list that passed the shape check: both numbers at least 1. */
  type Proper = v: Version | Finite(v) && v.epoch.value >= 1.0 && v.version.value >= 1.0
    witness Version(Fin(1.0), Fin(1.0))

  /** What a received frame can claim: `Number(...)` never returns `null`. */
  type Claim = v: Version | !v.epoch.Null? && !v.version.Null?
    witness Version(NaN, NaN)

  type Key = string

  /** A signed list; `devices` stands for everything but its version. */
  datatype List = List(ev: Proper, devices: seq<Key>)

  // ---------------------------------------------------------------------------
  // The order on versions

  /** `compareDeviceList` */
  function Compare(a: Version, b: Version): (c: int)
    ensures c in {-1, 0, 1}
  {
    if !Same(a.epoch, b.epoch) then (if Lt(a.epoch, b.epoch) then -1 else 1)
    else if !Same(a.version, b.version) then (if Lt(a.version, b.version) then -1 else 1)
    else 0
  }

  predicate IsNewer(candidate: Version, stored: Version) { Compare(candidate, stored) > 0 }

  /** On numbers a strict total order, in which a higher epoch beats any version. */
  lemma {:induction false} StrictTotalOrder(a: Version, b: Version, c: Version)
    requires Finite(a) && Finite(b) && Finite(c)
    ensures Compare(b, a) == -Compare(a, b)
    ensures !IsNewer(a, a)
    ensures IsNewer(a, b) ==> !IsNewer(b, a)
    ensures IsNewer(a, b) && IsNewer(b, c) ==> IsNewer(a, c)
    ensures !IsNewer(a, b) && !IsNewer(b, c) ==> !IsNewer(a, c)
    ensures IsNewer(a, b) || IsNewer(b, a) || a == b
    ensures a.epoch.value > b.epoch.value ==> IsNewer(a, b)
    ensures a.epoch == b.epoch ==> (IsNewer(a, b) <==> a.version.value > b.version.value)
  {}

  /** Neither number is equal to, below or above the other. */
  predicate Unordered(a: Num, b: Num) { !Same(a, b) && !Lt(a, b) && !Lt(b, a) }

  /** On what can be received it is not an order: two versions are newer than each
      other exactly when their epochs, or under one epoch their versions, are
      unordered, that is when a NaN is involved, or a stored `null` and a 0. */
  lemma {:induction false} NewerBothWaysExactly(a: Version, b: Version)
    ensures IsNewer(a, b) && IsNewer(b, a) <==>
      Unordered(a.epoch, b.epoch) || (Same(a.epoch, b.epoch) && Unordered(a.version, b.version))
    ensures forall x: Num, y: Num :: Unordered(x, y) <==>
      x.NaN? || y.NaN? || (x.Null? && y == Fin(0.0)) || (x == Fin(0.0) && y.Null?)
  {}

  /** Against the version of a checked list everything compares sensibly. */
  lemma {:induction false} OrderedWithProper(a: Proper, b: Proper, v: Version)
    ensures !IsNewer(b, v) && !IsNewer(v, b) <==> v == b
    ensures IsNewer(a, b) && !IsNewer(v, b) ==> IsNewer(a, v)
  {}

  // ---------------------------------------------------------------------------
  // My own list

  /** `publishOwnDeviceList` */
  function Publish(own: Option<List>, candidate: List): Option<List> {
    if own.None? || Compare(candidate.ev, own.value.ev) > 0 then Some(candidate) else own
  }

  function PublishAll(ls: seq<List>): Option<List> {
    if ls == [] then None else Publish(PublishAll(ls[..|ls| - 1]), ls[|ls| - 1])
  }

  /** Whatever the order of publication, the own list is one of the published ones
      and none of them is newer. */
  lemma {:induction false} OwnListIsMaximum(ls: seq<List>)
    requires ls != []
    ensures PublishAll(ls).Some? && PublishAll(ls).value in ls
    ensures forall l :: l in ls ==> !IsNewer(l.ev, PublishAll(ls).value.ev)
  {
    var rest, last := ls[..|ls| - 1], ls[|ls| - 1];
    assert ls == rest + [last];
    if rest != [] {
      OwnListIsMaximum(rest);
      forall l | l in ls ensures !IsNewer(l.ev, PublishAll(ls).value.ev) {
        StrictTotalOrder(l.ev, last.ev, PublishAll(rest).value.ev);
      }
    }
  }

  /** Publication order does not matter, as long as no two different lists carry the
      same version. */
  lemma {:induction false} PublicationOrderIrrelevant(ls: seq<List>, ms: seq<List>)
    requires ls != [] && forall l :: l in ls <==> l in ms
    requires forall l, m :: l in ls && m in ls && l.ev == m.ev ==> l == m
    ensures PublishAll(ls) == PublishAll(ms)
  {
    assert ls[0] in ms;
    OwnListIsMaximum(ls);
    OwnListIsMaximum(ms);
    StrictTotalOrder(PublishAll(ls).value.ev, PublishAll(ms).value.ev, PublishAll(ls).value.ev);
  }

  // ---------------------------------------------------------------------------
  // One contact

  datatype Attempt = Attempt(ev: Version, at: int, tries: nat)

  /** `legacy` is the person-wide watermark of older clients; `attempts` is in memory. */
  datatype Contact = Contact(
    primary: Key, deviceList: Option<seq<Key>>, acked: map<Key, Version>, legacy: Option<Version>, attempts: map<Key, Attempt>)

  datatype State = State(own: Option<List>, contact: Contact)

  function Targets(c: Contact): seq<Key> {
    if c.deviceList.Some? then c.deviceList.value else [c.primary]
  }

  /** `peerAckForDevice`: the old watermark can only stand for the primary. */
  function AckOf(c: Contact, device: Key): Option<Version> {
    if device in c.acked then Some(c.acked[device])
    else if device == c.primary then c.legacy
    else None
  }

  /** The check that stops offering `list` to `device`. */
  predicate Settled(c: Contact, list: List, device: Key) {
    AckOf(c, device).Some? && !IsNewer(list.ev, AckOf(c, device).value)
  }

  /** `peerHasAckedListOnEveryDevice` */
  predicate AllSettled(c: Contact, list: List) { forall i :: 0 <= i < |Targets(c)| ==> Settled(c, list, Targets(c)[i]) }

  /** The tests of the `listack` branch; `claimed` is whatever the frame decoded to. */
  predicate Stores(s: State, from: Key, claimed: Claim) {
    && s.own.Some? && !IsNewer(claimed, s.own.value.ev)
    && (from !in s.contact.acked || IsNewer(claimed, s.contact.acked[from]))
  }

  function OnAck(s: State, from: Key, claimed: Claim): State {
    if !Stores(s, from, claimed) then s
    else
      var c := s.contact.(acked := s.contact.acked[from := claimed]);
      s.(contact := if from == c.primary then c.(legacy := Some(claimed)) else c)
  }

  /** What a stored watermark reads as after a reload. */
  function Kept(n: Num): Num { if n.Fin? then n else Null }

  function Reloaded(v: Version): Version { Version(Kept(v.epoch), Kept(v.version)) }

  function ReloadContact(c: Contact): Contact {
    c.(acked := map d | d in c.acked :: Reloaded(c.acked[d]),
       legacy := if c.legacy.Some? then Some(Reloaded(c.legacy.value)) else None,
       attempts := map[])
  }

  function Pow2(n: nat): nat { if n == 0 then 1 else 2 * Pow2(n - 1) }

  function Backoff(tries: nat): nat {
    var w := GOSSIP_COOLDOWN_MS * Pow2(tries);
    if w < GOSSIP_MAX_BACKOFF_MS then w else GOSSIP_MAX_BACKOFF_MS
  }

  predicate SameList(a: map<Key, Attempt>, list: List, device: Key) { device in a && a[device].ev == list.ev }

  /** The device is due an offer of `list` now. */
  predicate Due(c: Contact, a: map<Key, Attempt>, list: List, device: Key, now: int) {
    && !Settled(c, list, device)
    && (SameList(a, list, device) ==> now - a[device].at >= Backoff(a[device].tries))
  }

  function Tried(a: map<Key, Attempt>, list: List, device: Key, now: int): map<Key, Attempt> {
    a[device := Attempt(list.ev, now, if SameList(a, list, device) then a[device].tries + 1 else 0)]
  }

  /** Going through the targets in order: the devices offered the list, and the
      attempts recorded. */
  function Offer(c: Contact, list: List, devices: seq<Key>, now: int): (seq<Key>, map<Key, Attempt>) {
    if devices == [] then ([], c.attempts) else
      var d := devices[|devices| - 1];
      var (sent, a) := Offer(c, list, devices[..|devices| - 1], now);
      if Due(c, a, list, d, now) then (sent + [d], Tried(a, list, d, now)) else (sent, a)
  }

  /** `allowed` covers the local-only, stale-identity and revocation checks. */
  function Gossiped(s: State, allowed: bool, now: int): (State, seq<Key>) {
    if s.own.None? || !allowed then (s, []) else
      var (sent, a) := Offer(s.contact, s.own.value, Targets(s.contact), now);
      (s.(contact := s.contact.(attempts := a)), sent)
  }

  /** One target of a round. The round reads its list and its targets once, then awaits
      a send after each target, so anything may happen between two of these. */
  function OfferOne(s: State, list: List, device: Key, now: int): State {
    if Due(s.contact, s.contact.attempts, list, device, now)
    then s.(contact := s.contact.(attempts := Tried(s.contact.attempts, list, device, now)))
    else s
  }

  datatype Event =
    | Published(list: List)
    | Acked(from: Key, claimed: Claim)
    | PeerDevices(devices: seq<Key>)
    | GossipRound(allowed: bool, now: int)
    | Offered(list: List, device: Key, now: int)
    | Reload

  function Step(s: State, e: Event): State {
    match e
    case Published(list) => s.(own := Publish(s.own, list))
    case Acked(from, claimed) => OnAck(s, from, claimed)
    case PeerDevices(devices) => s.(contact := s.contact.(deviceList := Some(devices)))
    case GossipRound(allowed, now) => Gossiped(s, allowed, now).0
    case Offered(list, device, now) => OfferOne(s, list, device, now)
    case Reload => s.(contact := ReloadContact(s.contact))
  }

  function Run(s: State, es: seq<Event>): State {
    if es == [] then s else Step(Run(s, es[..|es| - 1]), es[|es| - 1])
  }

  /** What one acknowledgement changes: if it claims no version newer than the own list,
      and is newer than what its device had claimed, it becomes that device's watermark,
      and for the primary also the one older clients read; otherwise nothing. */
  lemma {:induction false} AckEffect(s: State, from: Key, claimed: Claim, d: Key)
    ensures var t := Step(s, Acked(from, claimed)); var c, e := s.contact, t.contact;
      && t.own == s.own && e.primary == c.primary && e.deviceList == c.deviceList && e.attempts == c.attempts
      && (d != from ==> (d in e.acked <==> d in c.acked) && (d in c.acked ==> e.acked[d] == c.acked[d]))
      && if s.own.Some? && Compare(claimed, s.own.value.ev) <= 0 && (from in c.acked ==> Compare(claimed, c.acked[from]) > 0)
         then from in e.acked && e.acked[from] == claimed && e.legacy == (if from == c.primary then Some(claimed) else c.legacy)
         else t == s
  {}

  /** A reload keeps every watermark that is a pair of numbers, and forgets the attempts. */
  lemma {:induction false} ReloadKeeps(s: State, d: Key)
    ensures var c, e := s.contact, Step(s, Reload).contact;
      && Step(s, Reload).own == s.own && e.deviceList == c.deviceList && e.primary == c.primary && e.attempts == map[]
      && (d in e.acked <==> d in c.acked) && (d in c.acked && Finite(c.acked[d]) ==> e.acked[d] == c.acked[d])
      && (e.legacy.Some? <==> c.legacy.Some?) && (c.legacy.Some? && Finite(c.legacy.value) ==> e.legacy == c.legacy)
  {}

  // ---------------------------------------------------------------------------
  // The watermark never passes my list

  /** No watermark is newer than my own list. */
  ghost predicate WatermarksOk(s: State) {
    && (forall d :: d in s.contact.acked ==> s.own.Some? && !IsNewer(s.contact.acked[d], s.own.value.ev))
    && (s.contact.legacy.Some? ==> s.own.Some? && !IsNewer(s.contact.legacy.value, s.own.value.ev))
  }

  lemma {:induction false} PublishGrows(own: Option<List>, l: List, v: Version)
    requires own.Some?
    ensures Publish(own, l).Some?
    ensures !IsNewer(v, own.value.ev) ==> !IsNewer(v, Publish(own, l).value.ev)
  {}

  lemma {:induction false} ReloadStaysBehind(v: Version, p: Proper)
    requires !IsNewer(v, p)
    ensures !IsNewer(Reloaded(v), p)
  {}

  lemma {:induction false} StepWatermarks(s: State, e: Event)
    requires WatermarksOk(s)
    ensures WatermarksOk(Step(s, e))
  {
    hide IsNewer, Publish, Offer, Reloaded;
    if e.Published? && s.own.Some? {
      PublishGrows(s.own, e.list, e.list.ev);
      forall d | d in s.contact.acked ensures !IsNewer(s.contact.acked[d], Publish(s.own, e.list).value.ev) {
        PublishGrows(s.own, e.list, s.contact.acked[d]);
      }
      if s.contact.legacy.Some? { PublishGrows(s.own, e.list, s.contact.legacy.value); }
    }
    if e.Reload? && s.own.Some? {
      forall d | d in s.contact.acked ensures !IsNewer(Reloaded(s.contact.acked[d]), s.own.value.ev) {
        ReloadStaysBehind(s.contact.acked[d], s.own.value.ev);
      }
      if s.contact.legacy.Some? { ReloadStaysBehind(s.contact.legacy.value, s.own.value.ev); }
    }
  }

  /** In every run, whatever is claimed, no watermark passes my own list. */
  lemma {:induction false} WatermarkNeverAhead(s: State, es: seq<Event>)
    requires WatermarksOk(s)
    ensures WatermarksOk(Run(s, es))
  {
    hide Step, WatermarksOk;
    if es != [] {
      WatermarkNeverAhead(s, es[..|es| - 1]);
      StepWatermarks(Run(s, es[..|es| - 1]), es[|es| - 1]);
    }
  }

  // ---------------------------------------------------------------------------
  // When a watermark moves forward only

  /** Every claim of the run is made of numbers. */
  predicate Sound(e: Event) { e.Acked? ==> Finite(e.claimed) }

  predicate AllSound(es: seq<Event>) { forall i :: 0 <= i < |es| ==> Sound(es[i]) }

  /** A device's watermark exists and is made of numbers. */
  predicate FiniteAt(s: State, d: Key) { d in s.contact.acked && Finite(s.contact.acked[d]) }

  lemma {:induction false} StepForward(t: State, e: Event, d: Key)
    requires FiniteAt(t, d)
    ensures d in Step(t, e).contact.acked
    ensures FiniteAt(Step(t, e), d) ==> !IsNewer(t.contact.acked[d], Step(t, e).contact.acked[d])
    ensures Sound(e) ==> FiniteAt(Step(t, e), d)
  {
    hide Offer, Publish, Compare;
    var v := t.contact.acked[d];
    StrictTotalOrder(v, v, v);
    if e.Acked? && Finite(e.claimed) { StrictTotalOrder(v, e.claimed, v); }
  }

  /** In every run whose claims are numbers, a device's own watermark, once there, only
      moves forward. */
  lemma {:induction false} WatermarkForward(s: State, es: seq<Event>, d: Key)
    requires FiniteAt(s, d) && AllSound(es)
    ensures FiniteAt(Run(s, es), d) && !IsNewer(s.contact.acked[d], Run(s, es).contact.acked[d])
  {
    hide Step, Compare;
    StrictTotalOrder(s.contact.acked[d], s.contact.acked[d], s.contact.acked[d]);
    if es != [] {
      var rest, t := es[..|es| - 1], Run(s, es[..|es| - 1]);
      assert AllSound(rest);
      WatermarkForward(s, rest, d);
      StepForward(t, es[|es| - 1], d);
      StrictTotalOrder(s.contact.acked[d], t.contact.acked[d], Run(s, es).contact.acked[d]);
    }
  }

  // ---------------------------------------------------------------------------
  // When it can move back

  /** A NaN reaches the stored watermark exactly when it stands for the version of an
      epoch below my own, and the device has no watermark of a higher epoch. */
  lemma {:induction false} NaNStoredExactly(s: State, d: Key, claimed: Claim)
    requires s.own.Some? && (claimed.epoch.NaN? || claimed.version.NaN?)
    ensures Stores(s, d, claimed) <==>
      && Lt(claimed.epoch, s.own.value.ev.epoch)
      && (d in s.contact.acked ==> !Lt(claimed.epoch, s.contact.acked[d].epoch))
  {}

  /** A watermark that ends below where it was has in between not been a number. */
  lemma {:induction false} BackOnlyThroughNonNumber(s: State, es: seq<Event>, d: Key)
    requires FiniteAt(s, d) && FiniteAt(Run(s, es), d) && IsNewer(s.contact.acked[d], Run(s, es).contact.acked[d])
    ensures exists k :: 0 <= k <= |es| && d in Run(s, es[..k]).contact.acked && !Finite(Run(s, es[..k]).contact.acked[d])
  {
    hide Step, Compare;
    StrictTotalOrder(s.contact.acked[d], s.contact.acked[d], s.contact.acked[d]);
    if es != [] {
      var rest := es[..|es| - 1];
      var t := Run(s, rest);
      WatermarkStays(s, rest, d);
      if FiniteAt(t, d) {
        StepForward(t, es[|es| - 1], d);
        StrictTotalOrder(s.contact.acked[d], t.contact.acked[d], Run(s, es).contact.acked[d]);
        BackOnlyThroughNonNumber(s, rest, d);
        var k :| 0 <= k <= |rest| && d in Run(s, rest[..k]).contact.acked && !Finite(Run(s, rest[..k]).contact.acked[d]);
        assert es[..k] == rest[..k];
      }
    }
  }

  lemma {:induction false} WatermarkStays(s: State, es: seq<Event>, d: Key)
    requires d in s.contact.acked
    ensures d in Run(s, es).contact.acked
  {
    hide Offer, Publish, Compare;
    if es != [] { WatermarkStays(s, es[..|es| - 1], d); }
  }

  predicate NoPublication(es: seq<Event>) { forall i :: 0 <= i < |es| ==> !es[i].Published? }

  /** Under my own epoch only numbers are stored, and only larger ones. */
  lemma {:induction false} OwnEpochStep(t: State, e: Event, d: Key)
    requires FiniteAt(t, d) && t.own.Some? && t.contact.acked[d].epoch == t.own.value.ev.epoch && !e.Published?
    ensures FiniteAt(Step(t, e), d) && Step(t, e).own == t.own
    ensures Step(t, e).contact.acked[d].epoch == t.own.value.ev.epoch
    ensures !IsNewer(t.contact.acked[d], Step(t, e).contact.acked[d])
  {
    hide Offer, Publish;
  }

  lemma {:induction false} OwnEpochRun(s: State, es: seq<Event>, d: Key)
    requires FiniteAt(s, d) && s.own.Some? && s.contact.acked[d].epoch == s.own.value.ev.epoch && NoPublication(es)
    ensures var t := Run(s, es);
      && FiniteAt(t, d) && t.own == s.own && t.contact.acked[d].epoch == s.own.value.ev.epoch
      && !IsNewer(s.contact.acked[d], t.contact.acked[d])
  {
    hide Step, Compare;
    StrictTotalOrder(s.contact.acked[d], s.contact.acked[d], s.contact.acked[d]);
    if es != [] {
      var rest := es[..|es| - 1];
      assert NoPublication(rest);
      OwnEpochRun(s, rest, d);
      OwnEpochStep(Run(s, rest), es[|es| - 1], d);
      StrictTotalOrder(s.contact.acked[d], Run(s, rest).contact.acked[d], Run(s, es).contact.acked[d]);
    }
  }

  /** The run ends with a smaller number as the watermark of `d`. */
  ghost predicate MovesBack(s: State, es: seq<Event>, d: Key) {
    FiniteAt(s, d) && FiniteAt(Run(s, es), d) && IsNewer(s.contact.acked[d], Run(s, es).contact.acked[d])
  }

  /** One frame without a version, then any older version of the same epoch. */
  function NaNThen(d: Key, v: Claim): seq<Event> { [Acked(d, v.(version := NaN)), Acked(d, v)] }

  lemma {:induction false} NaNOpensTheWay(s: State, d: Key, v: Claim)
    requires FiniteAt(s, d) && s.own.Some? && s.contact.acked[d].epoch.value < s.own.value.ev.epoch.value
    requires Finite(v) && v.epoch == s.contact.acked[d].epoch
    ensures FiniteAt(Run(s, NaNThen(d, v)), d) && Run(s, NaNThen(d, v)).contact.acked[d] == v
  {
    var es := NaNThen(d, v);
    assert es[..1][..0] == [] && es[..1] == [Acked(d, v.(version := NaN))];
    var t := Step(s, es[0]);
    assert t.contact.acked[d] == v.(version := NaN);
    assert Run(s, es[..1]) == t;
  }

  /** For as long as my list stays the same, some sequence of frames can move a device's
      watermark back if and only if its epoch is below my own. */
  lemma {:induction false} WatermarkCanGoBackExactly(s: State, d: Key)
    requires WatermarksOk(s) && FiniteAt(s, d)
    ensures s.own.Some?
    ensures (exists es :: NoPublication(es) && MovesBack(s, es, d)) <==>
      s.contact.acked[d].epoch.value < s.own.value.ev.epoch.value
  {
    var a := s.contact.acked[d];
    if a.epoch.value < s.own.value.ev.epoch.value {
      var v := a.(version := Fin(a.version.value - 1.0));
      NaNOpensTheWay(s, d, v);
      assert NoPublication(NaNThen(d, v)) && MovesBack(s, NaNThen(d, v), d);
    } else {
      assert a.epoch == s.own.value.ev.epoch;
      forall es | NoPublication(es) ensures !MovesBack(s, es, d) { OwnEpochRun(s, es, d); }
    }
  }

  /** The input: under epoch 2, a device at (1, 7) sends an acknowledgement without a
      version, then (1, 3). */
  lemma {:induction false} MissingVersionMovesBack()
    ensures var s := State(Some(List(Version(Fin(2.0), Fin(1.0)), ["A"])),
                           Contact("A", None, map["A" := Version(Fin(1.0), Fin(7.0))], None, map[]));
      var t := Run(s, NaNThen("A", Version(Fin(1.0), Fin(3.0))));
      && WatermarksOk(s) && "A" in t.contact.acked && t.contact.acked["A"] == Version(Fin(1.0), Fin(3.0))
  {
    var s := State(Some(List(Version(Fin(2.0), Fin(1.0)), ["A"])),
                   Contact("A", None, map["A" := Version(Fin(1.0), Fin(7.0))], None, map[]));
    NaNOpensTheWay(s, "A", Version(Fin(1.0), Fin(3.0)));
  }

  // ---------------------------------------------------------------------------
  // What is believed of a device

  /** One acknowledgement makes the client believe an older version of a device in
      exactly two cases: it is the first per-device one of a primary that so far only
      had the person-wide watermark of older clients, and names an older list than
      that; or it and the device's watermark are unordered. */
  lemma {:induction false} BeliefRegressesExactly(s: State, from: Key, claimed: Claim, d: Key)
    requires AckOf(s.contact, d).Some?
    requires !AckOf(s.contact, d).value.epoch.NaN? && !AckOf(s.contact, d).value.version.NaN?
    ensures var before, after := AckOf(s.contact, d).value, AckOf(OnAck(s, from, claimed).contact, d);
      && after.Some?
      && (IsNewer(before, after.value) <==>
           && d == from && s.own.Some? && !IsNewer(claimed, s.own.value.ev)
           && (if d in s.contact.acked
               then Unordered(claimed.epoch, before.epoch)
                    || (Same(claimed.epoch, before.epoch) && Unordered(claimed.version, before.version))
               else IsNewer(before, claimed)))
  {
    NewerBothWaysExactly(claimed, AckOf(s.contact, d).value);
  }

  /** The first case exists also with numbers only. */
  lemma {:induction false} LegacyBeliefCanRegress()
    ensures var own := Some(List(Version(Fin(1.0), Fin(5.0)), ["A"]));
      var s := State(own, Contact("A", None, map[], Some(Version(Fin(1.0), Fin(5.0))), map[]));
      && WatermarksOk(s)
      && AckOf(s.contact, "A") == Some(Version(Fin(1.0), Fin(5.0)))
      && AckOf(OnAck(s, "A", Version(Fin(1.0), Fin(3.0))).contact, "A") == Some(Version(Fin(1.0), Fin(3.0)))
  {}

  /** The old watermark is not in use: it is absent, or the primary has its own. */
  predicate LegacyUnused(c: Contact) { c.legacy.Some? ==> c.primary in c.acked }

  lemma {:induction false} LegacyStaysUnused(s: State, es: seq<Event>)
    requires LegacyUnused(s.contact)
    ensures LegacyUnused(Run(s, es).contact) && Run(s, es).contact.primary == s.contact.primary
  {
    hide Offer, Publish, Compare;
    if es != [] { LegacyStaysUnused(s, es[..|es| - 1]); }
  }

  /** Without a watermark left by an older client, and when all claims are numbers, what
      is believed of any device only moves forward, in every run. */
  lemma {:induction false} BeliefForward(s: State, es: seq<Event>, d: Key)
    requires LegacyUnused(s.contact) && AllSound(es)
    requires AckOf(s.contact, d).Some? && Finite(AckOf(s.contact, d).value)
    ensures AckOf(Run(s, es).contact, d).Some? && !IsNewer(AckOf(s.contact, d).value, AckOf(Run(s, es).contact, d).value)
  {
    WatermarkForward(s, es, d);
  }

  /** An acknowledgement moves the watermark of the device it came from only. */
  lemma {:induction false} AckIsPerDevice(s: State, from: Key, claimed: Claim, other: Key)
    requires other != from
    ensures AckOf(OnAck(s, from, claimed).contact, other) == AckOf(s.contact, other)
  {}

  // ---------------------------------------------------------------------------
  // Offering

  /** Offering my list to a device has stopped exactly when the device acknowledged
      exactly that list. */
  lemma {:induction false} SettledMeansExact(s: State, es: seq<Event>, d: Key)
    requires WatermarksOk(s) && Run(s, es).own.Some?
    ensures var t := Run(s, es);
      Settled(t.contact, t.own.value, d) <==> AckOf(t.contact, d) == Some(t.own.value.ev)
  {
    hide Run;
    WatermarkNeverAhead(s, es);
    var t := Run(s, es);
    if AckOf(t.contact, d).Some? { OrderedWithProper(t.own.value.ev, t.own.value.ev, AckOf(t.contact, d).value); }
  }

  /** A newer list is offered to every device again. */
  lemma {:induction false} NewListUnsettles(s: State, es: seq<Event>, l: List, d: Key)
    requires WatermarksOk(s) && Run(s, es).own.Some? && IsNewer(l.ev, Run(s, es).own.value.ev)
    ensures Step(Run(s, es), Published(l)).own == Some(l)
    ensures !Settled(Run(s, es).contact, l, d)
  {
    hide Run;
    WatermarkNeverAhead(s, es);
    var t := Run(s, es);
    if AckOf(t.contact, d).Some? { OrderedWithProper(l.ev, t.own.value.ev, AckOf(t.contact, d).value); }
  }

  lemma {:induction false} OfferOther(c: Contact, list: List, devices: seq<Key>, now: int, d: Key)
    requires d !in devices
    ensures d !in Offer(c, list, devices, now).0
    ensures (d in Offer(c, list, devices, now).1 <==> d in c.attempts)
    ensures d in c.attempts ==> Offer(c, list, devices, now).1[d] == c.attempts[d]
  {
    hide Due;
    if devices != [] { OfferOther(c, list, devices[..|devices| - 1], now, d); }
  }

  /** Among distinct targets a round offers the list to exactly those that are due:
      not settled, and past their own backoff. */
  lemma {:induction false} OfferExact(c: Contact, list: List, devices: seq<Key>, now: int, d: Key)
    requires forall i, j :: 0 <= i < j < |devices| ==> devices[i] != devices[j]
    ensures d in Offer(c, list, devices, now).0 <==> d in devices && Due(c, c.attempts, list, d, now)
  {
    if devices != [] {
      var rest, last := devices[..|devices| - 1], devices[|devices| - 1];
      assert devices == rest + [last];
      OfferExact(c, list, rest, now, d);
      OfferOther(c, list, rest, now, last);
    }
  }

  function OffersOf(list: List, devices: seq<Key>, now: int): seq<Event> {
    seq(|devices|, i requires 0 <= i < |devices| => Offered(list, devices[i], now))
  }

  /** A round that nothing interrupts is its targets' steps in order, so what holds in
      every run also holds when acknowledgements and publications fall between them. */
  lemma {:induction false} RoundIsSteps(s: State, list: List, devices: seq<Key>, now: int)
    ensures Run(s, OffersOf(list, devices, now))
         == s.(contact := s.contact.(attempts := Offer(s.contact, list, devices, now).1))
  {
    hide Due, Tried;
    if devices != [] {
      var rest, d := devices[..|devices| - 1], devices[|devices| - 1];
      RoundIsSteps(s, list, rest, now);
      var es := OffersOf(list, devices, now);
      assert es[..|es| - 1] == OffersOf(list, rest, now);
      DueIgnoresAttempts(s.contact, Run(s, OffersOf(list, rest, now)).contact, Offer(s.contact, list, rest, now).1, list, d, now);
    }
  }

  lemma {:induction false} DueIgnoresAttempts(c: Contact, x: Contact, a: map<Key, Attempt>, list: List, d: Key, now: int)
    requires x == c.(attempts := x.attempts)
    ensures Due(x, a, list, d, now) == Due(c, a, list, d, now)
  {}

  /** Backoff doubles from 30 seconds up to one hour and stays there. */
  lemma {:induction false} BackoffShape(n: nat)
    ensures Backoff(0) == 30_000
    ensures Backoff(n + 1) == if 2 * Backoff(n) < 3_600_000 then 2 * Backoff(n) else 3_600_000
  {}

  /** A target that has not acknowledged the current list is offered it by any allowed
      round at least an hour after the last attempt. */
  lemma {:induction false} OfferedWithinTheHour(s: State, d: Key, now: int)
    requires s.own.Some? && d in Targets(s.contact)
    requires forall i, j :: 0 <= i < j < |Targets(s.contact)| ==> Targets(s.contact)[i] != Targets(s.contact)[j]
    requires AckOf(s.contact, d).None? || IsNewer(s.own.value.ev, AckOf(s.contact, d).value)
    requires d in s.contact.attempts ==> s.contact.attempts[d].at + 3_600_000 <= now
    ensures d in Gossiped(s, true, now).1
  {
    OfferExact(s.contact, s.own.value, Targets(s.contact), now, d);
  }

  /** After an offer the same list is due to the device again exactly when the wait is
      over: 30 seconds after the first offer of a list, and after each further one twice as
      long as before, up to an hour. A reload starts over. */
  lemma {:induction false} NextOfferExactly(s: State, list: List, d: Key, now: int, later: int)
    requires Due(s.contact, s.contact.attempts, list, d, now)
    ensures var t := OfferOne(s, list, d, now);
      var wait := if SameList(s.contact.attempts, list, d) then 2 * Backoff(s.contact.attempts[d].tries) else 30_000;
      && t.own == s.own && t.contact.acked == s.contact.acked && t.contact.legacy == s.contact.legacy
      && (Due(t.contact, t.contact.attempts, list, d, later) <==> later - now >= if wait < 3_600_000 then wait else 3_600_000)
    ensures var r := ReloadContact(s.contact);
      Due(r, r.attempts, list, d, later) <==> !Settled(r, list, d)
  {
    hide Backoff;
    BackoffShape(0);
    if SameList(s.contact.attempts, list, d) { BackoffShape(s.contact.attempts[d].tries); }
  }

  // ---------------------------------------------------------------------------
  // In place

  class GossipState {
    var own: Option<List>
    var primary: Key
    var deviceList: Option<seq<Key>>
    var acked: map<Key, Version>
    var legacy: Option<Version>
    var attempts: map<Key, Attempt>

    function Value(): State
      reads this
    {
      State(own, Contact(primary, deviceList, acked, legacy, attempts))
    }

    constructor (primary: Key)
      ensures Value() == State(None, Contact(primary, None, map[], None, map[]))
    {
      this.primary := primary;
      own, deviceList, acked, legacy, attempts := None, None, map[], None, map[];
    }

    method PublishOwnDeviceList(candidate: List) returns (authority: List)
      modifies this`own
      ensures Value() == Step(old(Value()), Published(candidate)) && own == Some(authority)
    {
      if own.None? || Compare(candidate.ev, own.value.ev) > 0 {
        own := Some(candidate);
        return candidate;
      }
      return own.value;
    }

    method OnListAck(from: Key, claimed: Claim)
      modifies this
      ensures Value() == Step(old(Value()), Acked(from, claimed))
    {
      if own.Some? && !IsNewer(claimed, own.value.ev) {
        if from !in acked || IsNewer(claimed, acked[from]) {
          acked := acked[from := claimed];
          if from == primary { legacy := Some(claimed); }
        }
      }
    }

    method PeerHasAckedListOnEveryDevice(list: List) returns (all: bool)
      ensures all == AllSettled(Value().contact, list)
    {
      var c := Value().contact;
      var targets := Targets(c);
      for i := 0 to |targets|
        invariant forall k :: 0 <= k < i ==> Settled(c, list, targets[k])
      {
        if !Settled(c, list, targets[i]) { return false; }
      }
      return true;
    }

    method EnsureListGossiped(allowed: bool, now: int) returns (sent: seq<Key>)
      modifies this`attempts
      ensures (Value(), sent) == Gossiped(old(Value()), allowed, now)
    {
      sent := [];
      if own.None? || !allowed { return; }
      var list, c := own.value, Value().contact;
      var targets := Targets(c);
      for i := 0 to |targets|
        invariant (sent, attempts) == Offer(c, list, targets[..i], now)
      {
        assert targets[..i + 1][..i] == targets[..i];
        var target := targets[i];
        var last := if target in c.acked then Some(c.acked[target]) else if target == c.primary then c.legacy else None;
        if last.Some? && !IsNewer(list.ev, last.value) { continue; }
        var sameList := target in attempts && attempts[target].ev == list.ev;
        var tries := if sameList then attempts[target].tries else 0;
        if sameList && now - attempts[target].at < Backoff(tries) { continue; }
        attempts := attempts[target := Attempt(list.ev, now, if sameList then tries + 1 else 0)];
        sent := sent + [target];
      }
      assert targets[..|targets|] == targets;
    }
  }
}
