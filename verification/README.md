# Skytale: verified models

Dafny models of the parts of Skytale whose correctness is hardest to see from the
code, with machine-checked proofs about every input, every run and every reachable
state. `dafny verify dfyconfig.toml` checks everything.

## What is modelled

**Blob uploads.** `BlobQuota` (the Durable Object that accounts for uploads) is a
class over its tables, counters and alarm (`BlobQuota.dfy`); each method is one atomic
section of the source and is proved to move the state exactly as a function of
`QuotaModel.dfy` says. `QuotaInvariants.dfy` and `QuotaProtocol.dfy` prove what every
run of the coordinator keeps, `QuotaAnswers.dfy` what it answers to each call, exactly.
`UploadWorld.dfy` puts the coordinator beside R2, the worker's create/part/complete/abort
handlers, the cleanup tasks, the paginated bucket scan and the lifecycle rules. Every `await` is a step boundary; a call is either heard,
or its answer is lost, and then it may still take effect any number of times, at any
later time. A task may stop for ever at any await, which is what a restart looks like.
`UploadSafety.dfy` proves one inductive invariant over all steps of that machine and
`UploadTheorems.dfy` reads the safety statements off it. `UploadSteps.dfy` says what a
single step does to the tables, the bucket and the tasks; `UploadOrphans.dfy` uses it to
say exactly when a receipt can lose its object, and `UploadOrphanRuns.dfy` gives the runs.
`UploadReceipts.dfy` says what an applied scan drops. `UploadProgress.dfy` and
`UploadEndings.dfy` are about getting somewhere: from every reachable state, where the
handlers and the cleanup end when they are heard, and what a single lost answer costs.

**The relay.** `MailboxModel.dfy` is the state machine of one inbox (`RelayRoom`):
queue, claim, sockets, the single alarm that serves two deadlines, and alarm handlers
that wait for push requests while other handlers run. `RelayRoom.dfy` is the class with
the same fields, its handlers proved against that machine. `MailboxProofs.dfy` covers
storage and loss, `MailboxAlarms.dfy` the alarm and the wake-ups. `Budgets.dfy` models
the two fixed-window rate counters, `Base64.dfy` the strict base64 checks.

**The client.** `ChunkReceive.dfy` (out-of-order attachment chunks, with a crash after
any durable write), `HistoryChunks.dfy` (greedy packing of chat history),
`GroupBuffer.dfy` (frames waiting for a roster revision), `Gossip.dfy` (own device list
and acknowledgement watermarks).

**Formats.** `BlobFormat.dfy` (encrypted blobs), `DeviceList.dfy` and `ListMessage.dfy`
(device lists on the wire and under the signature), `Codec.dfy`, `Utf8.dfy`,
`BlobLength.dfy`.

`Sums.dfy` holds the sums over tables that SQL's `SUM` stands for.

## Reading the proofs

A loop or a method that changes state is proved equal to a function; the theorems are
about that function. Lemmas mostly switch automatic induction off, and proofs `hide`
definitions they do not need, which keeps each obligation small.
Theorems that fix a limit or a period state it as a literal number, so that they do not
depend on the constants of the model.

Idealisations: SHA-256 is injective, so a stored token hash is represented by the token.
AES-GCM is a table of what the key has sealed. Ed25519 verification, the quota and
admission decisions outside a module, and the outcome of every send are parameters. Clock
values come from the caller; the relay's clock does not run backwards, and is bounded by
ECMAScript's largest time value. Upload ids and object keys are fresh when created.
R2 lists keys in lexicographic order, completes a multipart upload at most once, and
assembles an object from exactly the listed parts.

## Where the code and its stated intent differ

- The alarm of `BlobQuota` is meant to stand at or before every expiry. A cleanup started
  by `waitUntil(cleanupDue())` can call `retryCleanup` and is not followed by
  `scheduleNext`. `AlarmCoversExactly` shows that this is the only exception and when it
  bites; `RetryCanOutrunAlarm` is a run from the fresh schema in which it does.
- A receipt can end up without its object. `OrphanedExactly` names the steps that bring
  this about and `LossPossibleExactly` the states from which it can still happen; it takes
  two overlapping cleanups, or one cleanup and a worker whose commit comes after the
  claim's grace period, or a lost delete that lands late, or R2's lifecycle rule
  (`EachWayHappens`). Accounting stays safe: what is stored is covered, what is recorded
  need not be stored.
- An acknowledgement is stored as it comes, `Number(...)` of a missing version is NaN, and
  a comparison with NaN calls either side newer than the other. One such frame under an
  epoch below the own one lets the next frame put any older version in the place of a
  device's watermark (`MissingVersionMovesBack`); `NaNStoredExactly` and
  `WatermarkCanGoBackExactly` give the exact conditions. When an offer stops is not
  affected: `WatermarkNeverAhead` and `SettledMeansExact` hold for every claim.
- What is believed of a device goes back in exactly two cases (`BeliefRegressesExactly`):
  through such an unordered claim, or when a watermark left by an older client is replaced
  by the first per-device acknowledgement of the primary.
- A visible message can be left without delivery and without a wake-up in exactly two ways
  (`ForgottenExactly`). A socket that throws during the owner's drain leaves the remaining
  rows behind after the push deadline was cleared (`InterruptedDrainForgets`). And an owner
  socket that no longer takes frames but is still listed when the deadline passes makes the
  alarm drop the deadline without a wake-up (`StaleOwnerForgets`).
- `decryptBlob` ignores bytes after the last chunk; `AcceptsOnlyTheData` states the exact
  set of accepted blobs.
- The signed device-list message determines the devices of a list only among lists whose
  sorted entries agree, position by position, on whether they carry a prekey
  (`ContentBoundExactly`). Two lists that differ there can share a message, also when each
  of them is uniform (`MixedListsAmbiguous`).
- A history chunk id is meant to stand for the same content on a retry. `ChunkKeptExactly`
  says when it does after messages were appended: always but for the last chunk, and for
  that one only if the first new message does not fit into it.

## Model

| member | source | states |
|---|---|---|
| UploadTheorems.EveryObjectCovered | worker/blob-quota.ts:94-102 | in every reachable state every object the uploads put into the bucket is charged, with its real size, to the actor that uploaded it, as a reservation or as a ledger row |
| UploadTheorems.ActorWithinBudget | worker/blob-quota.ts:475-481 | one actor's real bytes and objects in R2 never exceed ACTOR_BUDGET and 256, in any run |
| UploadTheorems.StorageWithinBudget | worker/blob-quota.ts:468-474 | the bucket never grows past the storage budget, or past what it held before the first step if that was more |
| UploadTheorems.ScanNeverUndercounts | worker/blob-quota.ts:302-384 | after any interleaving with claims, commits, cleanups and lifecycle deletes the counters cover the real bucket, or stand above a ceiling and every reserve is refused; without a baseline every reserve is refused |
| UploadTheorems.ReleaseOnlyWhenGone | worker/index.ts:654-668 | wherever a release or a finishing cleanup is about to be called, or a release is still on its way, the multipart upload is closed and the object is gone |
| UploadTheorems.AssembledSizeIsReserved | worker/index.ts:760-770 | when R2 can complete an upload, the object it assembles has exactly the reserved bytes |
| UploadTheorems.NoContentMeansReceipt | worker/index.ts:771-799 | a 204 is answered only while the ledger holds the exact receipt for an object that was really stored with that size |
| UploadOrphans.OrphanedExactly | worker/index.ts:771-799 | from every reachable state, by every step: a receipt comes to stand without its object if and only if the step deletes the object of a recorded upload (a worker's or a cleanup's delete that is heard, a lost delete that lands, R2's lifecycle rule) or writes the receipt of an object already gone |
| UploadOrphans.LossPossibleExactly | worker/blob-quota.ts:922-966 | from every reachable state, for every stored object: without the lifecycle rule some later run parts receipt and object if and only if the recorded upload is threatened by a task or a lost delete, or the row not recorded yet is neither being aborted nor expired before its claim |
| UploadOrphans.TwoCleanupsLose | worker/blob-quota.ts:922-966 | wherever a claimed upload's object is stored, two overlapping cleanups can promote the row and delete the object |
| UploadOrphanRuns.OneCleanupLoses | worker/index.ts:783-795 | wherever a worker is about to commit such an upload, one cleanup is enough if the commit comes after the grace period |
| UploadOrphanRuns.EachWayHappens | worker/blob-quota.ts:922-966 | five runs from the fresh system end with a receipt whose object is gone: two cleanups; one cleanup and a late commit, in either order; a delete that lands late; the lifecycle rule |
| UploadProgress.UploadCompletes | worker/index.ts:673-799 | from every reachable state with a live upload whose parts are all registered and stored: request, complete and commit, when heard, end in a 204, the object stored with the reserved size, its row gone and the exact receipt in the ledger |
| UploadProgress.FailedCompleteIsRetried | worker/index.ts:716-758 | from every reachable state past a failed complete whose claim stands and whose upload is open with all its parts: the worker's head and restore, then the client's next complete request, end in such a 204 under the next operation number |
| UploadProgress.LostAnswerCompletes | worker/index.ts:724-748 | where the object was made and only the answer lost, the worker finds and commits it without another request |
| UploadProgress.LostHeadIsRecovered | worker/index.ts:724-757 | where the head is lost too, nothing is reopened or deleted: the row goes into recovery, due after 5 s |
| UploadEndings.UnansweredCompleteEnds | worker/index.ts:716-758 | an unanswered complete ends in a 204 both ways: with a retry if it never arrived, without one if it landed before the worker asked |
| UploadEndings.LostCommitIsRepeated | worker/index.ts:238-254 | a commit whose answer is lost is repeated and ends in a 204, whether or not the first has landed |
| UploadEndings.LateCommitEnds | worker/index.ts:724-795 | a commit after the grace period takes object and reservation back, or, for an object found by asking, leaves both to recovery |
| UploadEndings.FailedDeleteWaits | worker/index.ts:783-795 | where that delete or release fails, the row is left to recovery, due after 5 s |
| UploadEndings.CreationExact | worker/index.ts:595-622 | a new upload ends with exactly one new row and one open upload, or, refused, with the tables and the open uploads as they were |
| UploadEndings.PartIsStored | worker/index.ts:627-657 | a new part that fits is registered by the coordinator and held by R2 with the same size |
| UploadEndings.FailedPartRemoves | worker/index.ts:658-668 | a part whose upload fails takes the upload with it: row, parts and multipart are gone, everything else is as it was |
| UploadEndings.AbortRemoves | worker/index.ts:802-833 | an abort request for a live upload leaves nothing of it |
| UploadEndings.FailedAbortWaits | worker/index.ts:824-830 | where the abort or the release fails, the row stays charged, due after the retry delay |
| UploadEndings.CleanupRemoves | worker/blob-quota.ts:922-966 | from every reachable state one cleanup of a due row, when heard, leaves neither row nor upload nor object, unless the row is in recovery and its object stored |
| UploadEndings.NoEarlyCleanup | worker/blob-quota.ts:968-984 | no cleanup starts on a row before it is due or outside the cleanup phases |
| UploadEndings.CleanupRecords | worker/blob-quota.ts:922-933 | and then it is recorded with the receipt the worker's commit would have left, and the object stays |
| UploadEndings.SecondLookRecords | worker/blob-quota.ts:946-954 | also when the object only turns up after the abort has failed |
| UploadEndings.FailedCleanupRetries | worker/blob-quota.ts:922-966 | a cleanup whose call fails puts the row off by the retry delay and changes nothing else |
| UploadReceipts.AbsentIsForgotten | worker/blob-quota.ts:353-368 | an upload completed two weeks before a scan began, whose object was absent from the scan's beginning to its end, has no receipt once the scan is applied and counts against its actor no more |
| UploadReceipts.ScanForgetsExactly | worker/blob-quota.ts:353-368 | in every reachable state an applied complete scan drops exactly the receipts two weeks old and not listed; every actor's count falls by those objects and its bytes by their real sizes |
| UploadSafety.NextKeeps | worker/index.ts:586-835 | every step of every handler, cleanup task, scan, late call or lifecycle deletion keeps the system invariant |
| UploadSafety.CallKeeps | worker/blob-quota.ts:748-966 | any coordinator call that carries its evidence (a release only of a gone upload, a commit only of a stored object) keeps coverage and budget |
| UploadSafety.AssembledSize | worker/blob-quota.ts:566-621 | the parts listed at completion are exactly the registered ones, so their sum is the reservation |
| UploadSafety.ApplyKeeps | worker/blob-quota.ts:326-384 | applying a scan that no mutation crossed keeps every object covered and the counters sound |
| UploadSafety.PageCounts | worker/blob-quota.ts:279-300 | reading a listing page adds every listed object once, and an early stop means a ceiling is already exceeded |
| QuotaInvariants.EveryRunWithinCeilings | worker/blob-quota.ts:408-500 | from the fresh schema, in any run: at most 64 reservations; per actor at most 4 reservations, 256 objects and ACTOR_BUDGET bytes; parts only of live rows and within the reservation |
| QuotaInvariants.DoKeepsInvariant | worker/blob-quota.ts:502-621 | every call keeps those ceilings, and the rule that a claimed row's parts are exactly 1..N and add up to the reservation |
| QuotaInvariants.ChargeConserved | worker/blob-quota.ts:776-821 | outside reserve and an applied scan, completed plus reserved bytes never grow; a commit and a recovery keep them exactly equal |
| QuotaInvariants.DoEffect | worker/blob-quota.ts:94-102 | every call has one of five effects: rows kept, one row removed, one promoted, one added, or the counters rescanned |
| QuotaProtocol.CommitAcceptedExactly | worker/blob-quota.ts:823-873 | exactly when a commit is acknowledged, and that an acknowledgement always means an exact receipt |
| QuotaProtocol.RetrySucceedsAfterAnyRun | worker/index.ts:238-254 | the retry still succeeds after any later run, until a complete scan has verified that the object is gone |
| QuotaProtocol.RecoveryWritesSameReceipt | worker/blob-quota.ts:908-920 | alarm recovery leaves the very receipt the worker's commit asks for |
| QuotaProtocol.StaleOperationChangesNothing | worker/blob-quota.ts:653-684 | a restore, deferral or commit carrying another operation number changes no table |
| QuotaProtocol.CommitExcludesCleanup | worker/blob-quota.ts:875-893 | where a direct commit succeeds, a cleanup of the row fails before and after it |
| QuotaProtocol.PromotionFailsExactly | worker/blob-quota.ts:767-790 | promoting a claimed row fails only on a wrong actual size or an already recorded key |
| QuotaProtocol.RowAfterCall | worker/blob-quota.ts:623-765 | what one call can do to a row: owner kept, a cleanup phase final, parts frozen once claimed, leaving only by an accepted release, commit, recovery or finished cleanup, receipts only for claimed rows |
| QuotaProtocol.RowOverRun | worker/blob-quota.ts:653-742 | the same over whole runs, also across restoreActive |
| QuotaProtocol.AbortedNeverLedgered | worker/blob-quota.ts:623-651 | an upload that entered abort_pending is never recorded as completed |
| QuotaProtocol.ReceiptOnlyOnce | worker/blob-quota.ts:776-821 | once the row of a key is gone no run creates or changes a receipt for it, so a key is charged to the ledger at most once |
| QuotaProtocol.RetryBackoff | worker/blob-quota.ts:90-92 | cleanup retries double from 5 s to one hour and stay there |
| QuotaProtocol.PublicCallSchedules | worker/blob-quota.ts:396-406 | after every public call the alarm is the least expiry of any row |
| QuotaProtocol.AlarmCoversExactly | worker/blob-quota.ts:895-906 | a call keeps the alarm in front of every expiry if and only if it is not a retry that outruns it |
| QuotaProtocol.RetryCanOutrunAlarm | worker/blob-quota.ts:895-906 | a run of well-formed calls from the fresh schema, two cleanups started on one due row and a deferral between them, ends where the second one's retry moves the expiry before the alarm |
| QuotaAnswers.ReserveAnsweredExactly | worker/blob-quota.ts:408-500 | the answer of every reserve in numbers over the tables: refused as full only at 64 reservations, 4096 objects or 9 GiB, as the actor's limit only at 4 reservations, 256 objects or 2200 MiB, as unavailable only without counters younger than an hour or beside an unsettled completion; else granted for six hours, as one new row and nothing else |
| QuotaAnswers.PartAnsweredExactly | worker/blob-quota.ts:502-564 | a part is registered if and only if the upload is live, the number new and the size fits; the row is then live for exactly six hours from the part |
| QuotaAnswers.ClaimAnsweredExactly | worker/blob-quota.ts:566-621 | a claim is granted if and only if the upload is live and exactly its registered parts are listed and add up; it answers size and next operation number and invalidates a scan in progress |
| QuotaAnswers.ClaimHoldsFifteenMinutes | worker/blob-quota.ts:566-621 | a granted claim can be committed for exactly fifteen minutes |
| QuotaAnswers.ReceiptIsDated | worker/blob-quota.ts:776-821 | a receipt carries the time it was written, by the commit or by recovery, and may be dropped two weeks after it |
| QuotaAnswers.RestoreReopens | worker/blob-quota.ts:653-684 | the holder of the claim, and no one else, restores the upload: same parts, live for exactly six hours more |
| QuotaAnswers.DeferralHandsOver | worker/blob-quota.ts:711-746 | the holder of the claim, and no one else, hands the row to recovery, due after 5 s |
| QuotaAnswers.AbortAnsweredExactly | worker/blob-quota.ts:623-651 | an abort is claimed if and only if the upload is live, and leaves the row to the claimer for 30 s |
| QuotaAnswers.DroppedExactly | worker/blob-quota.ts:748-765 | the bearer's release, and a cleanup of the very row it was started for, drop that row with its parts and nothing else; any other changes no table |
| QuotaAnswers.ExpiredExactly | worker/blob-quota.ts:241-277 | time alone moves exactly the expired active and claimed rows, each into its cleanup phase, due at once |
| QuotaAnswers.ScanLocksFiveMinutes | worker/blob-quota.ts:302-322 | once a scan is opened another is opened if and only if five minutes have passed and the counters are not fresh |
| QuotaAnswers.AppliedScanIsUsable | worker/blob-quota.ts:326-352 | a scan is applied if and only if its token and mutation are current and no completion is unsettled; its counters are then usable for exactly an hour from its start |
| QuotaAnswers.ThrownScanReopens | worker/blob-quota.ts:371-384 | after a scan that threw every reserve is unavailable until a new scan, which may start at once |
| BlobQuota.BlobQuota.Reserve | worker/blob-quota.ts:408-500 | the storing transaction, including its error replies, moves the tables exactly as the model says; `ReserveAnsweredExactly` gives its answers in numbers |
| BlobQuota.BlobQuota.Commit | worker/blob-quota.ts:823-873 | promotion, receipt check and rescheduling in place equal the model |
| BlobQuota.BlobQuota.ScanApply | worker/blob-quota.ts:327-384 | token and mutation check, new counters and dropped receipts equal the model; `ScanForgetsExactly` says what is dropped |
| BlobQuota.ReadPage | worker/blob-quota.ts:279-300 | the listing loop computes the model's tally |
| BlobQuota.SameNumbers | worker/blob-quota.ts:566-621 | a stored set of part numbers equals a submitted list 1..N exactly when it is {1..N} |
| MailboxProofs.StoredUntilReleased | worker/relay.ts:471-473 | in any run a queued row stays, unchanged, until the owner acknowledges its id or it is 30 days old |
| MailboxProofs.ReceiptMeansStored | worker/relay.ts:954-964 | a sent receipt means the frame is queued under a new id |
| MailboxProofs.SendAnsweredExactly | worker/relay.ts:901-963 | a frame is invalid if and only if it is no base64 encoding within 1 208 192 characters, too large if and only if it has more than 1 200 000, refused as full if and only if the rows younger than 30 days number 1000 (claimed) or 256, or with it exceed 20 MiB or 2 MiB; any other is stored; what each answer leaves in the queue |
| MailboxProofs.SentIsAnnounced | worker/relay.ts:965-981 | a stored frame is handed to a listening owner at once; without one it sets the wake-up three seconds ahead unless one is set for another waiting message; a silent frame never does |
| MailboxProofs.RowLeaves | worker/relay.ts:884-992 | one handler removes a row only by expiry, by the owner's ack of its id, or because it is malformed |
| MailboxProofs.PurgeSparesAdmissible | worker/relay.ts:886-896 | even beside malformed legacy rows, the purge while draining removes nothing that send admits |
| MailboxProofs.IdsNeverReused | worker/relay.ts:955-962 | an assigned id that left the queue never comes back, in any run |
| MailboxProofs.AckUndoesSend | worker/relay.ts:982-992 | a stored frame that the owner then acknowledges leaves the queue exactly as the sweep before the send left it |
| MailboxProofs.DrainServesBacklog | worker/relay.ts:886-896 | a completed drain hands every remaining row with a usable id to the owner |
| MailboxProofs.DrainExactly | worker/relay.ts:884-898 | of the rows younger than 30 days a drain, interrupted or not, hands over exactly the deliverable ones before the send that throws, and removes exactly the undeliverable ones before it whose ids could be acknowledged |
| MailboxProofs.ExpiredSwept | worker/relay.ts:471-473 | connecting, sending, a completed authentication and the alarm leave no row of 30 days or more |
| MailboxProofs.QueueBounded | worker/relay.ts:926-942 | in any run 256 rows and 2 MiB until the claim, 1000 rows and 20 MiB after it |
| MailboxProofs.OwnersAuthenticated | worker/relay.ts:815-899 | a socket treated as owner has passed a valid authentication |
| MailboxProofs.AuthenticationEffect | worker/relay.ts:815-883 | a valid authentication makes its socket an owner and claims the inbox where allowed; an invalid one changes nothing; one whose reply fails leaves the queue alone |
| MailboxAlarms.AlarmBeforeEveryDeadline | worker/relay.ts:638-684 | in any run, restarts included, the alarm is at or before the push deadline and every row's expiry; the one gap is after it has gone off, until its handler or any other step reschedules it |
| MailboxAlarms.NextAlarmCovers | worker/relay.ts:613-649 | the scheduled time is one of the deadlines and none is earlier; the safe-integer checks discard nothing |
| MailboxAlarms.ArmedMeansPending | worker/relay.ts:632-661 | an armed push deadline has a visible row waiting |
| MailboxAlarms.WakeUpsSpaced | worker/relay.ts:654-684 | any two wake-ups of a run are at least PUSH_COALESCE_MS apart |
| MailboxAlarms.ForgottenExactly | worker/relay.ts:665-684 | a step, by whomever, takes a visible row's delivery, wake-up or pending wake-up away if and only if a drain does not get as far as the row, or the deadline passes while an owner socket is listed that did not take it |
| MailboxAlarms.DrainStanding | worker/relay.ts:884-898 | a visible row that a drain leaves in the queue has been delivered, or has had a wake-up, if and only if it had before or the drain got as far as sending it |
| MailboxAlarms.NoVisibleRowForgotten | worker/relay.ts:955-981 | in any run each queued visible row that no step forgot was handed to an owner, followed by a wake-up, or has one due within 3 s of its arrival with the alarm no later |
| MailboxAlarms.AcceptingForgetsNothing | worker/relay.ts:955-981 | while open sockets accept every frame no step forgets anything |
| MailboxAlarms.InterruptedDrainForgets | worker/relay.ts:884-898 | a run from the empty room in which a send that throws during the drain forgets the next row |
| MailboxAlarms.StaleOwnerForgets | worker/relay.ts:665-684 | a run from the empty room in which the alarm forgets a row because of an owner socket that did not take it |
| RelayRoom.Earliest | worker/relay.ts:238-245 | the loop over optional timestamps finds the least usable one |
| RelayRoom.RelayRoom.Send | worker/relay.ts:901-981 | checks, sweep, caps, insert, delivery and scheduling in place equal the model; `SendAnsweredExactly` and `SentIsAnnounced` say what that means |
| RelayRoom.RelayRoom.Auth | worker/relay.ts:848-899 | claim, drain, purge and rescheduling in place equal the model |
| RelayRoom.RelayRoom.DrainBacklog | worker/relay.ts:886-896 | the ordered loop purges and hands over exactly the rows before the send that throws |
| RelayRoom.RelayRoom.AlarmRings | worker/relay.ts:665-684 | sweep, wake decision and rescheduling in place equal the model |
| Budgets.AnswerExact | worker/relay.ts:331-374 | a charge is accepted if and only if the totals of its minute and its day over the whole history are within the caps |
| Budgets.WindowNeverExceeded | worker/relay.ts:296-299 | accepted frames and bytes of every aligned minute and day stay within the caps |
| Budgets.RefusedUntilWindowEnds | worker/relay.ts:331-374 | once over a cap, every later charge of that window is refused |
| Budgets.AnyMinuteAtMostTwice | worker/relay.ts:331-374 | any 60 s span admits at most twice the minute caps |
| Budgets.RoomAnswerExact | worker/relay.ts:522-557 | the per-room answer is the actor's own history of the minute against the caps |
| Budgets.PruningInvisible | worker/relay.ts:547-551 | pruning the table never changes an answer compared with an unpruned one |
| Budgets.PrunedTableRecent | worker/relay.ts:547-551 | the pruned table holds only actors of the last two minutes |
| Budgets.RelayActorGuard.Charge | worker/relay.ts:331-374 | an impossible size leaves no trace; any other charge is counted whether accepted or not |
| Base64.AcceptedExactlyEncodings | worker/relay.ts:108-127 | the accepted strings are exactly the encoder's outputs within the caller's limits, with the decoded length as computed (sections 3.5 and 4 of RFC 4648) |
| Base64.EncodeDecode | worker/relay.ts:111-127 | an accepted string is the encoding of what it decodes to |
| Base64.DecodeEncode | worker/relay.ts:264-274 | decoding undoes encoding for every byte string |
| Base64.EncodingUnique | worker/relay.ts:108-127 | one byte string has one accepted representation |
| Base64.UrlAcceptedExactlyEncodings | worker/relay.ts:129-141 | the same for the unpadded url variant (section 5 of RFC 4648) |
| Base64.UrlDecodeEncode | worker/relay.ts:143-146 | url decoding undoes url encoding |
| ChunkReceive.MarkerTruthful | src/Messenger.tsx:2204-2231 | in any order, with duplicates, storage failures and crashes: recorded indices are distinct, in range and stored, and the byte count is theirs and within the claimed size |
| ChunkReceive.PublishedIsWhole | src/Messenger.tsx:2233-2250 | a published transfer reads back as all indices with exactly the claimed bytes |
| ChunkReceive.Pigeonhole | src/Messenger.tsx:2233-2241 | as many distinct indices as chunks means every chunk |
| ChunkReceive.HonestTransferExact | src/Messenger.tsx:2995-3012 | a published transfer of an honest split is the original data |
| ChunkReceive.PiecesAreValid | src/Messenger.tsx:2995-3012 | every piece of every attachment of at most 30 MiB passes the receiver's checks, and has 48 KiB but for the last |
| ChunkReceive.OpensExactly | src/Messenger.tsx:2085-2099 | a first chunk that meets no obstacle leaves a trace if and only if it is within 800 chunks, 30 MiB and 256 KiB and neither empty nor over-split |
| ChunkReceive.UnwantedStoresNothing | src/Messenger.tsx:2078-2209 | a chunk that is refused, not admitted, of another description or beyond the claimed size stores nothing |
| ChunkReceive.GivenUp | src/Messenger.tsx:2204-2241 | a full storage at a new chunk, all chunks with the wrong number of bytes, and the sweep of a stale transfer give it up with everything stored of it |
| ChunkReceive.RecallIsFinal | src/Messenger.tsx:2119-2125 | nothing of a recalled transfer is stored, recorded or readable again, in any run |
| ChunkReceive.HonestTransferCompletes | src/Messenger.tsx:2078-2300 | for every attachment of at most 30 MiB: once every chunk of an honest split has arrived, in any order, without failures, the data is published |
| ChunkReceive.Receiver.ReceiveChunk | src/Messenger.tsx:2078-2300 | the receive path, with a crash after any durable write, equals the model; `OpensExactly`, `HonestTransferCompletes` and `GivenUp` say what that means |
| ChunkReceive.GetAttachmentBlob | src/lib/attachments.ts:237-261 | exactly when reading back yields the chunks in order, the size-limit error, or nothing |
| HistoryChunks.ChunksPartition | src/Messenger.tsx:3405-3419 | the chunks concatenate to the messages in order, none is empty, each fits 64 KiB or is one message |
| HistoryChunks.CountedInBytes | src/Messenger.tsx:3405-3410 | what is counted for a chunk is the UTF-8 length of everything in it and 80 bytes a message |
| HistoryChunks.ClosedOnlyWhenFull | src/Messenger.tsx:3411-3415 | a chunk is closed only when the next message would take it beyond 64 KiB |
| Utf8.DecodeEncode | src/Messenger.tsx:3405-3410 | the encoder, byte by byte as in section 3 of RFC 3629, loses nothing: decoding its bytes yields the code points |
| HistoryChunks.ChunksMinimal | src/Messenger.tsx:3405-3419 | no in-order partition that fits has fewer chunks |
| HistoryChunks.GreedyAhead | src/Messenger.tsx:3452-3469 | greedy packing is never behind any other partition, and has the shortest last chunk among the best |
| HistoryChunks.ChunksStable | src/Messenger.tsx:3420-3429 | appending messages leaves the content of all chunks but the last unchanged |
| HistoryChunks.ChunkKeptExactly | src/Messenger.tsx:3420-3429 | a chunk id keeps its content after an append if and only if the chunk was not the last, or nothing was appended, or the first new message does not fit into it |
| HistoryChunks.FrameKeptExactly | src/Messenger.tsx:3420-3429 | after an append the whole frame of a chunk, with its total, is the same if and only if the chunk was not the last and everything new fits into the last |
| HistoryChunks.Chunk | src/Messenger.tsx:3405-3419 | the loop computes the greedy packing |
| HistoryChunks.SentExactly | src/Messenger.tsx:3393-3401 | a message is sent, as it is, exactly if it has an id and a text |
| HistoryChunks.Select | src/Messenger.tsx:3393-3401 | every message is sent or counted as skipped |
| GroupBuffer.BufferBounded | src/Messenger.tsx:7044-7132 | in any run the byte counter is the sum of all held frames; at most 2 MiB, 8 groups, 12 frames a group; no sender and message id twice in a group; at most 16 tombstones |
| GroupBuffer.ContentsBounded | src/Messenger.tsx:7023-7042 | in any run the contents of all held frames, texts, names and file data, together have at most 2 MiB |
| GroupBuffer.AdmittedWithRoom | src/Messenger.tsx:7093-7131 | a frame whose group may wait is queued whenever 2 MiB, 12 frames a group and 8 groups leave room for it and no copy is waiting |
| GroupBuffer.IllFormedRejected | src/Messenger.tsx:7053-7061 | without a revision of at least 1, a state hash and a message id a frame is rejected and changes nothing |
| GroupBuffer.TombstoneRejects | src/Messenger.tsx:7085-7090 | within two minutes of its expiry a group gets no second waiting period |
| GroupBuffer.RedeliveryRecognised | src/Messenger.tsx:7098-7107 | a redelivery of the buffered relay row is retained, any other copy is a duplicate, and nothing is added |
| GroupBuffer.ExpiredIsRejected | src/Messenger.tsx:7064-7091 | the redelivery that finds its frame expired is rejected and cannot start a second waiting period |
| GroupBuffer.QueuedAppends | src/Messenger.tsx:7116-7131 | a queued frame is appended to its group and no other group changes |
| GroupBuffer.FlushExact | src/Messenger.tsx:7134-7161 | a flush that completes delivers exactly the frames up to the installed revision and keeps exactly those above, in order |
| GroupBuffer.InterruptedFlush | src/Messenger.tsx:7134-7161 | a flush interrupted by a throwing delivery has delivered a prefix of that and removed nothing |
| GroupBuffer.BuriedShape | src/Messenger.tsx:7072-7083 | trimming never drops the tombstone of a group that expired in the same pass |
| GroupBuffer.NewestStay | src/Messenger.tsx:7074-7082 | trimming keeps exactly the newest 16 tombstones |
| GroupBuffer.TransitionBuffer.QueueFrame | src/Messenger.tsx:7044-7132 | pruning, tombstones, limits and insertion in place equal the model and keep the invariant |
| GroupBuffer.TransitionBuffer.FlushFrames | src/Messenger.tsx:7134-7161 | the flush loop in place equals the model and keeps the invariant |
| Gossip.StrictTotalOrder | src/crypto/devicelist.ts:243-255 | on numbers (epoch, version) is a strict total order in which the epoch dominates |
| Gossip.NewerBothWaysExactly | src/crypto/devicelist.ts:243-255 | two versions are newer than each other exactly when a NaN is involved, or a stored null and a 0 |
| Gossip.OwnListIsMaximum | src/Messenger.tsx:1241-1249 | the own list is a published list and none published is newer |
| Gossip.PublicationOrderIrrelevant | src/Messenger.tsx:1241-1249 | the order of publication does not matter |
| Gossip.AckEffect | src/Messenger.tsx:4931-4956 | what one acknowledgement changes: the claim becomes its device's watermark, and for the primary the old one too, exactly if it is not newer than the own list and newer than the device's last; else nothing |
| Gossip.ReloadKeeps | src/lib/session.ts:2188-2188 | a reload keeps every watermark that is a pair of numbers |
| Gossip.WatermarkForward | src/Messenger.tsx:4931-4956 | in any run whose claims are numbers a device's own watermark only moves forward |
| Gossip.NaNStoredExactly | src/lib/session.ts:1398-1401 | a claim with a NaN is stored if and only if its epoch is below the own one and the device has no watermark of a higher epoch |
| Gossip.BackOnlyThroughNonNumber | src/Messenger.tsx:4931-4956 | a watermark that ends below where it was has in between not been a number |
| Gossip.WatermarkCanGoBackExactly | src/Messenger.tsx:4931-4956 | while the own list stays the same, some frames can move a device's watermark back if and only if its epoch is below the own one |
| Gossip.MissingVersionMovesBack | src/lib/session.ts:1398-1401 | such an input: an acknowledgement without a version, then (1, 3), move (1, 7) to (1, 3) |
| Gossip.WatermarkNeverAhead | src/Messenger.tsx:4931-4956 | no watermark passes my own list, in any run, whatever is claimed |
| Gossip.BeliefRegressesExactly | src/Messenger.tsx:3666-3678 | exactly when one acknowledgement makes the belief about a device go back: the first per-device one of a primary that had a newer watermark from an older client, or one unordered with the device's watermark |
| Gossip.BeliefForward | src/Messenger.tsx:3666-3678 | without such a leftover watermark, and when all claims are numbers, it only moves forward |
| Gossip.SettledMeansExact | src/Messenger.tsx:3680-3697 | offering to a device has stopped if and only if it acknowledged exactly the current list |
| Gossip.NewListUnsettles | src/Messenger.tsx:3709-3719 | a newer list is due to every device again |
| Gossip.OfferExact | src/Messenger.tsx:3699-3745 | a round offers the list to exactly the targets that are not settled and past their backoff |
| Gossip.RoundIsSteps | src/Messenger.tsx:3699-3745 | a round is the steps of its targets in order, between which anything may happen, so the run theorems cover acknowledgements that arrive while it sends |
| Gossip.BackoffShape | src/Messenger.tsx:3725-3729 | retries double from 30 s up to one hour and stay there |
| Gossip.NextOfferExactly | src/Messenger.tsx:3725-3745 | after an offer the same list is due again exactly after 30 s, then after twice the last wait, up to an hour; a reload starts over |
| Gossip.OfferedWithinTheHour | src/Messenger.tsx:3720-3736 | backoff never delays an unacknowledged device beyond an hour |
| Gossip.GossipState.EnsureListGossiped | src/Messenger.tsx:3699-3745 | the loop over targets equals the model |
| BlobFormat.RoundTrip | src/crypto/blob.ts:58-97 | decryption undoes encryption for every data, also empty |
| BlobFormat.LengthMatchesReservation | worker/index.ts:113-115 | the ciphertext is exactly as long as the worker reserves, for every size |
| BlobFormat.AcceptsOnlyTheData | src/crypto/blob.ts:79-97 | with the true size a blob is accepted if and only if it starts with the true ciphertext, and then yields exactly the data |
| BlobFormat.TamperedRejected | src/crypto/blob.ts:8-15 | any other blob of at most the reserved length is rejected |
| BlobFormat.EncryptBlob | src/crypto/blob.ts:58-77 | the sealing and joining loops produce the concatenated frames |
| BlobFormat.DecryptBlob | src/crypto/blob.ts:79-97 | the walk with moving offsets opens the chunks in order, filling the buffer exactly |
| DeviceList.DecodeEncode | src/crypto/devicelist.ts:284-402 | every well-formed list within the wire bound decodes to itself |
| DeviceList.EncodingAlwaysDecodes | src/crypto/devicelist.ts:54-58 | the JSON text of a well-formed list always fits the wire bound, so it always decodes |
| DeviceList.DecodeDeterminesWire | src/crypto/devicelist.ts:319-402 | whatever decodes is well formed and encodes to the very value it was decoded from, up to the version tag, so no two values of one tag decode to the same list |
| DeviceList.DecodedNumbers | src/crypto/devicelist.ts:319-402 | what decodes has positive safe numbers, 1 to 32 devices and a tag from 1 to 3; only under tag 3 does a device name its protocol version, and lists without one decode alike under all three |
| DeviceList.ValidDeviceEntries | src/crypto/devicelist.ts:74-129 | the loop over key sets accepts exactly the lists of 1 to 32 valid entries with distinct keys |
| ListMessage.OrderIndependent | src/crypto/devicelist.ts:144-170 | the signed message does not depend on the order of the devices |
| ListMessage.AscendingUnique | src/crypto/devicelist.ts:146-146 | any ascending arrangement of the same devices is the same, so the sort used does not matter |
| ListMessage.MessageBegins | src/crypto/devicelist.ts:144-156 | the message begins with the bytes of its context, v3 exactly if a device names its protocol version, and the master key |
| ListMessage.ContentBoundExactly | src/crypto/devicelist.ts:145-170 | two lists with equal messages agree on master, epoch, version and capability context, and on the set of (signPub, dhPub, prekey, effective version) if and only if their sorted entries agree position by position on carrying a prekey |
| ListMessage.MessageBindsExactly | src/crypto/devicelist.ts:145-170 | for two lists that agree on that, in particular both with a prekey in every entry or both with none, the messages are equal if and only if all of it agrees |
| ListMessage.MixedListsAmbiguous | src/crypto/devicelist.ts:158-169 | two well-formed lists that differ in their prekey pattern, two devices with prekeys and three without, have one message |
| ListMessage.BuildListMsg | src/crypto/devicelist.ts:145-170 | the loop that pushes the parts builds that message |
| ListMessage.CmpTotal | src/crypto/devicelist.ts:61-64 | byte comparison is zero exactly on equal keys and antisymmetric |
| ListMessage.CmpBytes | src/crypto/devicelist.ts:61-64 | the loop with its early exit computes that comparison |
| Codec.ConcatBytes | src/crypto/codec.ts:27-37 | the buffer filled with a moving offset is the concatenation |
| Codec.BytesEqual | src/crypto/codec.ts:44-49 | the accumulator that never exits early is zero if and only if the arrays are equal |
| Codec.EpochBytesInjective | src/crypto/master.ts:34-42 | the 8-byte encoding determines the number |
| Codec.WriteEpochBytes | src/crypto/master.ts:34-42 | the loop from the last byte writes the big-endian encoding |

## Left out

- HTTP, headers, rate-limit bindings, CSP, push fetches and the VAPID signature: input and output.
- SQL text, schema migrations and rows of older schemas, except malformed queue rows in `PurgeSparesAdmissible`.
- SHA-256, AES-GCM, Ed25519 and Web Crypto themselves: ideal functions or parameters.
- JSON parsing: `DeviceList.Wire` starts from parsed JSON of the right types and from the text's length.
- Lone surrogates, which `TextEncoder` replaces: a `char` here is a Unicode scalar value.
- `atob` and `btoa`: `Base64` states what they compute on accepted strings.
- Sharing one scan between concurrent reserves (`reconcileInFlight`): any number of scans may run at once instead.
- The worker's argument checks and part etags: they only remove behaviours; a wrong etag or a short body is a call that is not heard and has no effect.
- The alarm in `UploadWorld`: cleanup tasks may start at any time a row is due; the alarm itself is modelled with the coordinator alone.
- Guest eviction, connection caps, push subscriptions and ping in `RelayRoom`: a socket may close at any step.
- The length of a nonce challenge and its expiry: part of the `valid` parameter of authentication.
- Two interleaved reschedulings of one room: the platform's storage gate makes each atomic.
- Quota admission, aliasing and recall bookkeeping around `receiveChunk`: parameters; a recall is permanent.
- ChunkReceive.Receiver.ReceiveChunk: a wipe is one durable write, because its first write deletes the key that seals the chunks and makes every record that is still there unreadable.
- GroupBuffer.TransitionBuffer.FlushFrames: which delivery throws is a parameter; nothing else enters the buffer between its awaits, because the inbox runs one task at a time (src/Messenger.tsx:2310).
- Gossip.GossipState.EnsureListGossiped: the method is a round that nothing interrupts; `RoundIsSteps` and the step for a single target cover the awaits between targets.
- `bundleFromDeviceEntry`, list signing and verification, and every user-interface file.
- `worker/contact-code.ts`, `worker/official-account.ts`, the ratchet, sessions, backups and linking.
