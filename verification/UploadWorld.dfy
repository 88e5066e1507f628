/** The coordinator beside the R2 store, the upload workers, the cleanup tasks and
    the paginated bucket scan. Every `await` is a step boundary. A call is either
    heard (it takes effect and its answer arrives) or not heard: the caller sees
    an exception while the call itself may still take effect at any later time. */
module UploadWorld {
  import opened Sums
  import opened QuotaModel
  import opened BlobLength

  datatype Obj = Obj(actor: string, size: nat)

  /** An open multipart upload and the parts R2 holds for it. */
  datatype Upload = Upload(uploadId: string, actor: string, parts: map<int, nat>)

  datatype Owner = Owner(uploadId: string, actor: string)

  /** A `reserve` call on its way to the coordinator. */
  datatype Request = Request(token: string, size: nat)

  datatype Cursor = Start | After(key: Key) | End

  /** A call whose answer never arrived. */
  datatype Sent =
    | ToQuota(call: Call)
    | ToPart(key: Key, uploadId: string, number: int, size: nat)
    | ToComplete(key: Key, uploadId: string, numbers: seq<int>)
    | ToAbort(key: Key, uploadId: string)
    | ToDelete(key: Key)

  /** Where a handler, a cleanup task or the scan stands. */
  datatype Proc =
    | CreateWait(key: Key)
    | CreateAbort(key: Key, uploadId: string)
    | PartUpload(key: Key, uploadId: string, token: string, number: int, size: nat)
    | PartFail(key: Key, uploadId: string, token: string)
    | AbortUpload(key: Key, uploadId: string, token: string)
    | ReleaseAborted(key: Key, uploadId: string, token: string)
    | DeferAborted(key: Key, uploadId: string, token: string)
    | CompleteUpload(key: Key, uploadId: string, token: string, op: nat, bytes: nat, numbers: seq<int>)
    | HeadCheck(key: Key, uploadId: string, token: string, op: nat, bytes: nat)
    | Committing(key: Key, uploadId: string, token: string, op: nat, size: nat, viaHead: bool, again: bool)
    | NoContent(key: Key, uploadId: string, token: string, op: nat, size: nat)
    | Restoring(key: Key, uploadId: string, token: string, op: nat)
    | DeferCompleted(key: Key, uploadId: string, token: string, op: nat)
    | DeleteObject(key: Key, uploadId: string, token: string, op: nat)
    | ReleaseDeleted(key: Key, uploadId: string, token: string, op: nat)
    | CleanHead(key: Key, row: Row)
    | CleanPromote(key: Key, row: Row, found: nat)
    | CleanDelete(key: Key, row: Row)
    | CleanAbort(key: Key, row: Row)
    | CleanHeadAgain(key: Key, row: Row)
    | CleanPromoteAgain(key: Key, row: Row, found: nat)
    | CleanFinish(key: Key, row: Row)
    | CleanRetry(key: Key, row: Row)
    | Scanning(scan: nat, version: nat, asOf: int, cursor: Cursor, tally: Tally, since: set<Key>)

  /** The whole system. `start` is the bucket before the first step; `made`,
      `granted` and `born` record every upload ever created, every reservation
      ever granted with its size, and every object ever stored. */
  datatype World = World(
    q: Quota,
    open: map<Key, Upload>,
    bucket: map<Key, Obj>,
    clock: int,
    creating: map<Key, Request>,
    procs: map<nat, Proc>,
    late: set<Sent>,
    start: map<Key, Obj>,
    made: map<Key, Owner>,
    granted: map<Key, nat>,
    born: map<Key, Obj>)

  /** A fresh coordinator beside a bucket that may already hold older objects. */
  function Initial(bucket: map<Key, Obj>, clock: int): World {
    World(EMPTY_QUOTA, map[], bucket, clock, map[], map[], {}, bucket, map[], map[], bucket)
  }

  // ---------------------------------------------------------------------------
  // R2

  predicate IsOpen(w: World, k: Key, u: string) { k in w.open && w.open[k].uploadId == u }

  function PutPart(w: World, k: Key, u: string, n: int, size: nat): World {
    if IsOpen(w, k, u) then w.(open := w.open[k := w.open[k].(parts := w.open[k].parts[n := size])]) else w
  }

  predicate CanComplete(w: World, k: Key, u: string, nums: seq<int>) {
    IsOpen(w, k, u) && forall n :: n in nums ==> n in w.open[k].parts
  }

  /** The object R2 makes of the listed parts. */
  ghost function Assembled(up: Upload, nums: seq<int>): Obj {
    Obj(up.actor, Sum(map n | n in up.parts && n in nums :: up.parts[n]))
  }

  ghost function Complete(w: World, k: Key, u: string, nums: seq<int>): World {
    if CanComplete(w, k, u, nums) then
      var o := Assembled(w.open[k], nums);
      w.(open := w.open - {k}, bucket := w.bucket[k := o], born := w.born[k := o])
    else w
  }

  function Abort(w: World, k: Key, u: string): World {
    if IsOpen(w, k, u) then w.(open := w.open - {k}) else w
  }

  function Delete(w: World, k: Key): World { w.(bucket := w.bucket - {k}) }

  // ---------------------------------------------------------------------------
  // Calls

  ghost function CallQuota(w: World, c: Call): World { w.(q := Do(w.q, c, w.clock).0) }

  ghost function Answer(w: World, c: Call): Reply { Do(w.q, c, w.clock).1 }

  /** A call takes effect. */
  ghost function Land(w: World, s: Sent): World {
    match s
    case ToQuota(c) => CallQuota(w, c)
    case ToPart(k, u, n, size) => PutPart(w, k, u, n, size)
    case ToComplete(k, u, nums) => Complete(w, k, u, nums)
    case ToAbort(k, u) => Abort(w, k, u)
    case ToDelete(k) => Delete(w, k)
  }

  function At(w: World, pid: nat, p: Proc): World { w.(procs := w.procs[pid := p]) }
  function Ends(w: World, pid: nat): World { w.(procs := w.procs - {pid}) }
  function Lost(w: World, s: Sent): World { w.(late := w.late + {s}) }

  /** `reserve` takes effect for an upload that was created. */
  ghost function GrantCall(w: World, k: Key, asOf: int): Call
    requires k in w.creating && k in w.made
  {
    Call.Reserve(k, w.made[k].uploadId, w.creating[k].token, w.made[k].actor, w.creating[k].size, asOf)
  }

  ghost function Grant(w: World, k: Key, asOf: int): World
    requires k in w.creating && k in w.made
  {
    var c := GrantCall(w, k, asOf);
    CallQuota(w, c).(creating := w.creating - {k},
                     granted := if Answer(w, c).Reserved? then w.granted[k := w.creating[k].size] else w.granted)
  }

  // ---------------------------------------------------------------------------
  // The handlers, one await at a time

  /** The next await of a worker or a cleanup task. */
  ghost function Advance(w: World, pid: nat, p: Proc, heard: bool): World {
    match p
    case CreateWait(k) => if heard then w else At(w, pid, CreateAbort(k, if k in w.made then w.made[k].uploadId else ""))
    case CreateAbort(k, u) => Ends(if heard then Abort(w, k, u) else Lost(w, ToAbort(k, u)), pid)
    case PartUpload(k, u, t, n, size) =>
      if heard && IsOpen(w, k, u) then Ends(PutPart(w, k, u, n, size), pid)
      else At(if heard then w else Lost(w, ToPart(k, u, n, size)), pid, PartFail(k, u, t))
    case PartFail(k, u, t) =>
      var c := Call.ClaimAbort(k, u, t);
      if !heard then Ends(Lost(w, ToQuota(c)), pid)
      else if Answer(w, c).Accepted? then At(CallQuota(w, c), pid, AbortUpload(k, u, t))
      else Ends(CallQuota(w, c), pid)
    case AbortUpload(k, u, t) =>
      if heard && IsOpen(w, k, u) then At(Abort(w, k, u), pid, ReleaseAborted(k, u, t))
      else At(if heard then w else Lost(w, ToAbort(k, u)), pid, DeferAborted(k, u, t))
    case ReleaseAborted(k, u, t) =>
      var c := Call.Release(k, u, t);
      if heard then Ends(CallQuota(w, c), pid) else At(Lost(w, ToQuota(c)), pid, DeferAborted(k, u, t))
    case DeferAborted(k, u, t) =>
      var c := Call.DeferAbort(k, u, t);
      Ends(if heard then CallQuota(w, c) else Lost(w, ToQuota(c)), pid)
    case CompleteUpload(k, u, t, o, bytes, nums) =>
      if !heard then At(Lost(w, ToComplete(k, u, nums)), pid, HeadCheck(k, u, t, o, bytes))
      else if !CanComplete(w, k, u, nums) then At(w, pid, HeadCheck(k, u, t, o, bytes))
      else
        var size := Assembled(w.open[k], nums).size;
        At(Complete(w, k, u, nums), pid,
           if size != bytes then DeleteObject(k, u, t, o) else Committing(k, u, t, o, size, false, false))
    case HeadCheck(k, u, t, o, bytes) =>
      At(w, pid,
         if !heard then DeferCompleted(k, u, t, o)
         else if k !in w.bucket then Restoring(k, u, t, o)
         else if w.bucket[k].size == bytes then Committing(k, u, t, o, bytes, true, false)
         else DeferCompleted(k, u, t, o))
    case Committing(k, u, t, o, size, viaHead, again) =>
      var c := Call.Commit(k, u, t, o, size);
      if !heard then
        (if again then Ends(Lost(w, ToQuota(c)), pid) else At(Lost(w, ToQuota(c)), pid, p.(again := true)))
      else
        At(CallQuota(w, c), pid,
           if Answer(w, c).Accepted? then NoContent(k, u, t, o, size)
           else if viaHead then DeferCompleted(k, u, t, o)
           else DeleteObject(k, u, t, o))
    case NoContent(_, _, _, _, _) => Ends(w, pid)
    case Restoring(k, u, t, o) =>
      var c := Call.RestoreActive(k, u, t, o);
      Ends(if heard then CallQuota(w, c) else Lost(w, ToQuota(c)), pid)
    case DeferCompleted(k, u, t, o) =>
      var c := Call.DeferCompletion(k, u, t, o);
      Ends(if heard then CallQuota(w, c) else Lost(w, ToQuota(c)), pid)
    case DeleteObject(k, u, t, o) =>
      if heard then At(Delete(w, k), pid, ReleaseDeleted(k, u, t, o))
      else At(Lost(w, ToDelete(k)), pid, DeferCompleted(k, u, t, o))
    case ReleaseDeleted(k, u, t, o) =>
      var c := Call.Release(k, u, t);
      if heard then Ends(CallQuota(w, c), pid) else At(Lost(w, ToQuota(c)), pid, DeferCompleted(k, u, t, o))
    case CleanHead(k, r) =>
      At(w, pid,
         if !heard then CleanRetry(k, r)
         else if k in w.bucket then CleanPromote(k, r, w.bucket[k].size)
         else CleanAbort(k, r))
    case CleanPromote(k, r, size) =>
      var c := Call.PromoteRecovered(k, r, size);
      if Answer(w, c).Accepted? then Ends(CallQuota(w, c), pid) else At(w, pid, CleanDelete(k, r))
    case CleanDelete(k, r) =>
      if heard then At(Delete(w, k), pid, CleanFinish(k, r)) else At(Lost(w, ToDelete(k)), pid, CleanRetry(k, r))
    case CleanAbort(k, r) =>
      if !heard then At(Lost(w, ToAbort(k, r.uploadId)), pid, CleanRetry(k, r))
      else if IsOpen(w, k, r.uploadId) then At(Abort(w, k, r.uploadId), pid, CleanFinish(k, r))
      else At(w, pid, CleanHeadAgain(k, r))
    case CleanHeadAgain(k, r) =>
      At(w, pid,
         if !heard then CleanRetry(k, r)
         else if k in w.bucket then CleanPromoteAgain(k, r, w.bucket[k].size)
         else CleanFinish(k, r))
    case CleanPromoteAgain(k, r, size) =>
      var c := Call.PromoteRecovered(k, r, size);
      if Answer(w, c).Accepted? then Ends(CallQuota(w, c), pid)
      else At(w, pid, if r.phase.AbortPending? then CleanDelete(k, r) else CleanRetry(k, r))
    case CleanFinish(k, r) => Ends(CallQuota(w, Call.FinishCleanup(k, r)), pid)
    case CleanRetry(k, r) => Ends(CallQuota(w, Call.RetryCleanup(k, r)), pid)
    case Scanning(_, _, _, _, _, _) => w
  }

  // ---------------------------------------------------------------------------
  // The bucket scan

  /** R2 lists keys in lexicographic order. */
  predicate LexLe(a: string, b: string)
    decreases |a|
  {
    a == "" || (b != "" && (a[0] < b[0] || (a[0] == b[0] && LexLe(a[1..], b[1..]))))
  }

  predicate Passed(c: Cursor, k: Key) {
    match c
    case Start => false
    case After(last) => LexLe(k, last)
    case End => true
  }

  /** `page` lists every object now stored between two cursors. */
  predicate IsPage(bucket: map<Key, Obj>, from: Cursor, page: seq<Key>, to: Cursor) {
    && !to.Start?
    && (forall k :: k in page ==> k in bucket)
    && (forall k :: k in bucket && !Passed(from, k) && Passed(to, k) ==> k in page)
  }

  function Listing(bucket: map<Key, Obj>, page: seq<Key>): seq<Listed>
    requires forall k :: k in page ==> k in bucket
  {
    seq(|page|, i requires 0 <= i < |page| => Listed(page[i], bucket[page[i]].size))
  }

  function ScanOne(w: World, pid: nat, p: Proc, page: seq<Key>, to: Cursor): World
    requires p.Scanning? && IsPage(w.bucket, p.cursor, page, to)
  {
    At(w, pid, p.(tally := TallyPage(p.tally, Listing(w.bucket, page)), cursor := to))
  }

  predicate ScanOver(p: Proc) { p.Scanning? && (p.cursor.End? || !p.tally.complete) }

  function ApplyCall(p: Proc): Call
    requires p.Scanning?
  {
    Call.ScanApply(p.scan, p.version, p.asOf, p.tally.bytes, p.tally.objects, p.tally.keys, p.tally.complete)
  }

  // ---------------------------------------------------------------------------
  // Steps and runs

  datatype Step =
    | Pass(ms: nat)
    | ExpireRows
    | Create(pid: nat, key: Key, uploadId: string, token: string, actor: string, plaintextBytes: nat)
    | ReserveReturns(pid: nat, asOf: int)
    | ReserveLands(key: Key, asOf: int)
    | PartRequest(pid: nat, key: Key, uploadId: string, token: string, number: int, size: nat, heard: bool)
    | CompleteRequest(pid: nat, key: Key, uploadId: string, token: string, numbers: seq<int>, heard: bool)
    | AbortRequest(pid: nat, key: Key, uploadId: string, token: string, heard: bool)
    | Act(pid: nat, heard: bool)
    | LandLate(sent: Sent)
    | CleanupStarts(pid: nat, key: Key)
    | ScanStarts(pid: nat, scan: nat)
    | ScanReads(pid: nat, page: seq<Key>, to: Cursor)
    | ScanEnds(pid: nat)
    | ScanThrows(pid: nat)
    | LifecycleDeletes(key: Key)
    | LifecycleAborts(key: Key, uploadId: string)

  ghost function StartCreate(w: World, s: Step): World
    requires s.Create?
  {
    if s.pid in w.procs || s.key in w.made || s.key in w.born
       || !(1 <= s.plaintextBytes <= MAX_PLAINTEXT_BLOB)
    then w
    else
      At(w, s.pid, CreateWait(s.key)).(
        open := w.open[s.key := Upload(s.uploadId, s.actor, map[])],
        made := w.made[s.key := Owner(s.uploadId, s.actor)],
        creating := w.creating[s.key := Request(s.token, ExpectedCipherBytes(s.plaintextBytes))])
  }

  ghost function ReturnReserve(w: World, pid: nat, asOf: int): World {
    if pid in w.procs && w.procs[pid].CreateWait? && w.procs[pid].key in w.creating && w.procs[pid].key in w.made then
      var k := w.procs[pid].key;
      if Answer(w, GrantCall(w, k, asOf)).Reserved? then Ends(Grant(w, k, asOf), pid)
      else At(Grant(w, k, asOf), pid, CreateAbort(k, w.made[k].uploadId))
    else w
  }

  ghost function StartPart(w: World, s: Step): World
    requires s.PartRequest?
  {
    var c := Call.ReservePart(s.key, s.uploadId, s.token, s.number, s.size);
    if s.pid in w.procs then w
    else if !s.heard then Lost(w, ToQuota(c))
    else if Answer(w, c).Accepted? then At(CallQuota(w, c), s.pid, PartUpload(s.key, s.uploadId, s.token, s.number, s.size))
    else CallQuota(w, c)
  }

  ghost function StartComplete(w: World, s: Step): World
    requires s.CompleteRequest?
  {
    var c := Call.ClaimComplete(s.key, s.uploadId, s.token, s.numbers);
    if s.pid in w.procs then w
    else if !s.heard then Lost(w, ToQuota(c))
    else
      var reply := Answer(w, c);
      if reply.Claimed?
      then At(CallQuota(w, c), s.pid, CompleteUpload(s.key, s.uploadId, s.token, reply.operation, reply.bytes, s.numbers))
      else CallQuota(w, c)
  }

  ghost function StartAbort(w: World, s: Step): World
    requires s.AbortRequest?
  {
    var c := Call.ClaimAbort(s.key, s.uploadId, s.token);
    if s.pid in w.procs then w
    else if !s.heard then Lost(w, ToQuota(c))
    else if Answer(w, c).Accepted? then At(CallQuota(w, c), s.pid, AbortUpload(s.key, s.uploadId, s.token))
    else CallQuota(w, c)
  }

  function StartCleanup(w: World, pid: nat, k: Key): World {
    if pid !in w.procs && k in w.q.rows && InCleanup(w.q.rows[k].phase) && w.q.rows[k].expiresAt <= w.clock then
      var r := w.q.rows[k];
      At(w, pid, if r.phase.CompletionCleanup? then CleanHead(k, r) else CleanAbort(k, r))
    else w
  }

  ghost function StartScan(w: World, pid: nat, scan: nat): World {
    var c := Call.ScanBegin(scan);
    if pid in w.procs then w
    else if Answer(w, c).ScanOpen?
    then At(CallQuota(w, c), pid, Scanning(scan, w.q.mutation, w.clock, Start, Tally(0, 0, {}, true), w.bucket.Keys))
    else CallQuota(w, c)
  }

  /** One step. A step that is not possible in `w` changes nothing. */
  ghost function Next(w: World, s: Step): World {
    match s
    case Pass(ms) => w.(clock := w.clock + ms)
    case ExpireRows => CallQuota(w, Tick)
    case Create(_, _, _, _, _, _) => StartCreate(w, s)
    case ReserveReturns(pid, asOf) => ReturnReserve(w, pid, asOf)
    case ReserveLands(k, asOf) => if k in w.creating && k in w.made then Grant(w, k, asOf) else w
    case PartRequest(_, _, _, _, _, _, _) => StartPart(w, s)
    case CompleteRequest(_, _, _, _, _, _) => StartComplete(w, s)
    case AbortRequest(_, _, _, _, _) => StartAbort(w, s)
    case Act(pid, heard) => if pid in w.procs then Advance(w, pid, w.procs[pid], heard) else w
    case LandLate(sent) => if sent in w.late then Land(w, sent) else w
    case CleanupStarts(pid, k) => StartCleanup(w, pid, k)
    case ScanStarts(pid, scan) => StartScan(w, pid, scan)
    case ScanReads(pid, page, to) =>
      if pid in w.procs && w.procs[pid].Scanning? && !ScanOver(w.procs[pid]) && IsPage(w.bucket, w.procs[pid].cursor, page, to)
      then ScanOne(w, pid, w.procs[pid], page, to) else w
    case ScanEnds(pid) =>
      if pid in w.procs && ScanOver(w.procs[pid]) then Ends(CallQuota(w, ApplyCall(w.procs[pid])), pid) else w
    case ScanThrows(pid) =>
      if pid in w.procs && w.procs[pid].Scanning? then Ends(CallQuota(w, Call.ScanFail(w.procs[pid].scan)), pid) else w
    case LifecycleDeletes(k) => Delete(w, k)
    case LifecycleAborts(k, u) => Abort(w, k, u)
  }

  ghost function RunFrom(w: World, steps: seq<Step>): World
    decreases |steps|
  {
    if steps == [] then w else RunFrom(Next(w, steps[0]), steps[1..])
  }
}
