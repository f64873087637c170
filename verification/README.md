# Models of the phone farm's stateful protocols

The repository runs phones for several people from one Mac: a server with an outbox and an audit log, a
desktop app that supervises the server, and a browser client. This project models the parts of it that keep
state over time, and proves what they promise over whole runs.

| file | what it models |
|---|---|
| NotificationStore, NotificationRuns, NotificationOutbox | the lease-based outbox of account mail and its drain loop |
| Json, JsonGrammar, JsonTorn, AuditLog | the append-only audit log, with a printer and reader of its lines, torn ones too |
| Crc, PngFrame | the PNG encoder of the fixture frames and icons, bit by bit |
| DurableFiles, ChildrenStore | the record of child processes, replaced as a whole on a disk that can lose power |
| DamagedRecord | moving a damaged record aside while another writer works on it |
| OrphanRecovery | stopping what an earlier run left behind |
| RestartPolicy, HostSupervisor, TopologyTransition | restarts, supervision and switching between host, site and client mode |
| LiveView, FramePipeline | the client's screenshot poller and its frame pipeline |
| Common | optional values, outcomes, bytes and powers of two |

Each module states the source's operations as functions on values, with a class whose methods do the same in
place and are proved equal to those functions; a run is a sequence of such steps, and what a protocol promises
is a lemma about every run. The code between two awaits is one step; at each await any other step may come.
Time is an integer number of milliseconds.

What the surroundings do is left open: file system calls may fail, processes end and process ids are used
again, other writers touch files between any two calls, timers and replies come in any order. What is assumed
is part of the statement of each lemma. The assumptions worth knowing:

- The other writer of a damaged record touches only the record's own name (RecoveryIsLossless,
  RecoveredMeansKept, PutBackIff and VetoPutsBack); RecoveryOverwritesIff says exactly when a file is overwritten by any other writer.
- Starts of the local server are routed through the chain of mode switches (AtMostOneServer), and for
  EveryRoutedStopIsFinal so are its stops. The desktop app's launch does not do that:
  OverlappingStartsRunTwoServers shows the two servers it can then run, StopDuringLaunchIsNotFinal and
  StopAfterOverlapIsNotFinal the server it can leave after a stop. The other results of HostSupervisor
  (OneServerIffSpawnsFindNone, StopIsFinalIff, the Lost lemmas) are about all runs, routed or not. OneRunOneMode assumes likewise that launch starts nothing outside the chain.
- No mode switch is asked for after stopAll (StopAllStopsAll); SurvivesStopAllIff says exactly when one survives.
- The clock does not go back (LeaseExclusivity, WindowHolds); LookGivesWindowIff is about any clock.
- Sealed text opens only with its key, and inflate undoes deflate.

Where the code does less than its comments or its documentation say, the code is followed; a run shows it and
a lemma gives the exact condition:

| shown by | exact condition |
|---|---|
| EmptyCustomBodyBecomesRefusal | CustomBodyKept |
| StrandedRun | ComesBackIff |
| OldExitCancelsNewRecord | RecordedIffNotOvertaken |
| OverwritingRun | RecoveryOverwritesIff |
| LookMayMixTwoProcesses | SignalsHitIff |
| OverlappingStartsRunTwoServers | OneServerIffSpawnsFindNone |
| StopDuringLaunchIsNotFinal, StopAfterOverlapIsNotFinal | StopIsFinalIff |
| ReadyAfterExitIsLost | LostExactlyWhenDropped |
| BackwardClockKeepsOldRestarts | LookGivesWindowIff |
| LateSwitchSurvivesStopAll | SurvivesStopAllIff |
| OldStreamCanBePainted | OldStreamIsPaintedIff |

NextEventLostIff says when a torn append in a process that goes on costs the next event, and StartAnswerHoldsIff
when start() of the live view answers true for a view already off. RecoveryIsSafe and
SignalsHitIff are about the signals sent; whether the system delivers them is not modelled.

## Model

| member | source | states |
|---|---|---|
| NotificationStore.AccountNotificationStore.QueueItem | system/server/src/accountNotificationStore.js:76-133 | the stored list and the answer or error after queue: one new item at the end, the found item for a known key, a revived aborted one, or a refusal |
| NotificationStore.AccountNotificationStore.SetCommit | system/server/src/accountNotificationStore.js:145-156 | only an item held for commit changes: released to be sent, or aborted |
| NotificationStore.AccountNotificationStore.SetOutcome | system/server/src/accountNotificationStore.js:161-171 | only a queued or retrying item changes, and it loses token and lease |
| NotificationStore.AccountNotificationStore.Claim | system/server/src/accountNotificationStore.js:177-214 | the first claimable item, in order, becomes sending with a new token and lease; when its text cannot be opened the claim is written all the same and the call fails |
| NotificationStore.AccountNotificationStore.Complete | system/server/src/accountNotificationStore.js:216-235 | only the item with this id, in sending, with this very token, changes: sent, given up or scheduled again (what each outcome stores is TouchDecides; over runs SentIff and FailedIff) |
| NotificationStore.AccountNotificationStore.RetryAll | system/server/src/accountNotificationStore.js:237-256 | every selected retryable item, and no other, starts a new cycle; the answer counts them |
| NotificationRuns.ReachableInv | system/server/src/accountNotificationStore.js:76-256 | after any mix of operations from an empty store: ids and tokens distinct and issued before, at most one item per idempotency key, a token present exactly while an item is sending |
| NotificationRuns.Conservation | system/server/src/accountNotificationStore.js:76-256 | items are never lost or reordered; recipient, subject, kind, creation time and stored text never change; a sent item never changes again |
| NotificationRuns.TouchDecides | system/server/src/accountNotificationStore.js:76-256 | each operation reaches exactly the items its caller names in the states it is for, and fixes state, sender, counters, claim, due time and time stamps of these and nothing of any other |
| NotificationRuns.LastTouchDecides | system/server/src/accountNotificationStore.js:76-256 | over every run, an item is what the last operation that reached it made it |
| NotificationRuns.SentIff | system/server/src/accountNotificationStore.js:161-171 | over every run, an item is sent if and only if a completion with its live claim said delivered, or markSent reached it while queued |
| NotificationRuns.SentForGood | system/server/src/accountNotificationStore.js:177-256 | from then on it is never changed and never handed out again, manual retries included |
| NotificationRuns.FailedIff | system/server/src/accountNotificationStore.js:216-256 | over every run, an item has permanently failed, or waits for an attempt at a given time, if and only if a completion that gave it up, or asked for that time, was the last hand-out's and no retry named it since |
| NotificationRuns.GivenUpStaysOut | system/server/src/accountNotificationStore.js:177-256 | an item given up is not handed out until a manual retry names it |
| NotificationRuns.HandedOutIff | system/server/src/accountNotificationStore.js:177-196 | a claim hands out an item if and only if it is the first one named that is due, by state, cycle count, due time, lease and sender address |
| NotificationRuns.AnswersShowTheStore | system/server/src/accountNotificationStore.js:145-235 | answers about an id show the stored item after the call without its text and token, or nothing if there is none |
| NotificationRuns.QueueShowsTheStore | system/server/src/accountNotificationStore.js:76-133 | queue answers with the item of the key, or with the new last item, in the same public view; a refusal stores nothing |
| NotificationRuns.ClaimShowsTheStore | system/server/src/accountNotificationStore.js:202-214 | a worker gets the text of the item handed out and the token stored for it |
| NotificationRuns.RefusedIff | system/server/src/accountNotificationStore.js:76-112 | each error of queue, if and only if its condition holds |
| NotificationRuns.RequeueFindsSameItem | system/server/src/accountNotificationStore.js:97-109 | queueing again under a key that was accepted before stores nothing and answers with the same item, whatever happened in between |
| NotificationRuns.LeaseHolds | system/server/src/accountNotificationStore.js:177-235 | from a hand-out on, until it is settled or taken over, the item stays sending with exactly the token and lease of that hand-out |
| NotificationRuns.LeaseExclusivity | system/server/src/accountNotificationStore.js:161-214 | with a clock that does not go back, an item is handed out a second time only if the first claim was settled or its lease had run out |
| NotificationRuns.TokenIsLive | system/server/src/accountNotificationStore.js:173-235 | a token in the file is always that of the latest hand-out of its item, not settled since |
| NotificationRuns.CompletionNeedsLiveToken | system/server/src/accountNotificationStore.js:216-235 | completeClaim changes anything if and only if id and token are those of a live hand-out |
| NotificationRuns.ComesBackIff | system/server/src/accountNotificationStore.js:180-194 | an item whose attempt died in sending is handed out again in some continuation under a budget if and only if its cycle count is below that budget |
| NotificationRuns.ClaimableAgainIff | system/server/src/accountNotificationStore.js:180-194 | one claim of such an item succeeds at some time exactly under the guard of line 184 |
| NotificationRuns.StrandedForever | system/server/src/accountNotificationStore.js:180-194 | until its own token comes back, such an item is not changed by anything as long as no larger budget is used, manual retries included |
| NotificationRuns.StrandedRun | system/server/src/accountNotificationStore.js:177-214 | with every budget such an item is reached: its last allowed attempt dies in sending and it never comes back |
| NotificationRuns.HeldUntilCommitted | system/server/src/accountNotificationStore.js:123-156 | an item held for commit or aborted is not handed out before markCommitted releases it |
| NotificationRuns.AttemptCountIsHandouts | system/server/src/accountNotificationStore.js:198-212 | attemptCount is exactly the number of times the item was handed out |
| NotificationRuns.AttemptBudget | system/server/src/accountNotificationStore.js:177-256 | with one maxAttempts, the cycle count stays within it and the total within maxAttempts times one more than the manual retries |
| NotificationRuns.CustomBodyKept | system/server/src/accountNotificationStore.js:85-96 | a custom text is the stored text if and only if it is not empty |
| NotificationRuns.EmptyCustomBodyBecomesRefusal | system/server/src/accountNotificationStore.js:86-96 | an accepted custom notification with an empty text is sent with the refusal text instead |
| NotificationRuns.DeliversQueuedText | system/server/src/accountNotificationStore.js:110-120 | what is handed out, whenever that is, has the recipient, subject and text that were queued, also after sealing; it is sealed exactly for recovery and sensitive mail |
| NotificationRuns.ReadableIff | system/server/src/accountNotificationStore.js:110-120 | it can be read if and only if it was stored in clear or the key of the process is the one it was sealed with |
| NotificationRuns.RecoveryLetter | system/server/src/accountNotificationStore.js:86-120 | the recovery letter ends in its token and is stored sealed |
| NotificationRuns.DecisionLetter | system/server/src/accountNotificationStore.js:86-96 | the letter says "not accepted" exactly when the application was rejected |
| NotificationRuns.StandardKind | system/server/src/accountNotificationStore.js:110-120 | the kind names the status unless the caller gives one |
| NotificationRuns.StandardSubject | system/server/src/accountNotificationStore.js:110-120 | each standard subject says what happened |
| NotificationRuns.HandedOutWithSender | system/server/src/accountNotificationStore.js:118-124 | under one configuration no item that could be claimed is without a sender address |
| NotificationOutbox.DelayDoubles | system/server/src/notificationOutbox.js:6-8 | the first delay is the base delay, each later one is twice the one before, and none is above the cap |
| NotificationOutbox.AfterRound | system/server/src/notificationOutbox.js:36-65 | after a round each item handed out is sent, due again after the delay of this attempt, given up at its last attempt, or still claimed, exactly as its answer and the attempt count say |
| NotificationOutbox.OneServing | system/server/src/notificationOutbox.js:36-53 | one claim, sending and completion replaces exactly the item handed out, which is then not due at the same time |
| NotificationOutbox.Outbox.SendNext | system/server/src/notificationOutbox.js:36-61 | the next due item, in order, is served as its answer says and no other item changes; it fails exactly when the text cannot be opened or the outcome cannot be recorded |
| NotificationOutbox.Outbox.Run | system/server/src/notificationOutbox.js:55-65 | at one time and with a positive lease the loop ends and hands out every item due at the start exactly once, in order, up to the first at which it is rejected (its text cannot be opened or its outcome cannot be recorded), and leaves all others unchanged; it fails exactly when there is such an item |
| Crc.ComputeCrc | system/server/fixtures/png-frame.js:11-19 | the nested loops compute the CRC of section 3.4 of RFC 2083 |
| Crc.MaskedStep | system/server/fixtures/png-frame.js:16 | the masked expression is the polynomial division step |
| Crc.PolynomialIs | system/server/fixtures/png-frame.js:16 | the constant is the polynomial of section 3.4 of RFC 2083 |
| Crc.EndChunkCrc | system/server/fixtures/png-frame.js:11-19 | the CRC of an empty IEND chunk is the known one, and that of nothing is zero |
| Crc.BitStepIsBijective | system/server/fixtures/png-frame.js:16 | a bit step loses no state and reaches every state |
| Crc.BitStepIsLinear | system/server/fixtures/png-frame.js:16 | a bit step respects exclusive-or |
| Crc.FeedIsFeedBits | system/server/fixtures/png-frame.js:14-17 | feeding a byte at once is feeding its eight bits, lowest first |
| Crc.BurstDetected | system/server/fixtures/png-frame.js:11-19 | two messages of one length that differ only inside 32 consecutive bits have different CRCs, at any length |
| Crc.FourBytesDetected | system/server/fixtures/png-frame.js:11-19 | replacing up to four consecutive bytes by others always changes the CRC |
| PngFrame.WriteUInt32BE | system/server/fixtures/png-frame.js:22-26 | writes the four big-endian bytes, and nothing when the number does not fit |
| PngFrame.WriteChunk | system/server/fixtures/png-frame.js:21-28 | length, type, data and CRC in this order, or the range error |
| PngFrame.NoGaps | system/server/fixtures/png-frame.js:32-42 | the pixels and rows of the raster follow each other without gap or overlap |
| PngFrame.RasterBuffer.Put | system/server/fixtures/png-frame.js:36-41 | one write, and the position noted |
| PngFrame.RasterBuffer.Fill | system/server/fixtures/png-frame.js:33-43 | the nested loop writes every position of the raster exactly once, in order and in bounds, each with its value |
| PngFrame.RasterBuffer.PutPixel | system/server/fixtures/png-frame.js:38-41 | the components of a pixel go to the next free positions, one write each |
| PngFrame.Frame | system/server/fixtures/png-frame.js:31-55 | the whole file, or the range error of a size that does not fit |
| PngFrame.ChunkReadsBack | system/server/fixtures/png-frame.js:21-28 | a reader following section 3.2 of RFC 2083 gets type and data back exactly when the length is one PNG allows |
| PngFrame.RasterUnpacks | system/server/fixtures/png-frame.js:32-43 | a reader of unfiltered rows, with its own layout, gets the components of every pixel back in their order |
| PngFrame.ColoursKept | system/server/fixtures/png-frame.js:38-41 | colours and opacities in range are the bytes written; a missing opacity counts as full |
| PngFrame.NamesAreThoseOfTheStandard | system/server/fixtures/png-frame.js:49-54 | the signature and the chunk names |
| PngFrame.FrameReadsBack | system/server/fixtures/png-frame.js:49-54 | the three chunks are read back in order |
| PngFrame.RoundTrip | system/server/fixtures/png-frame.js:31-55 | for every size, pixel function and deflate/inflate pair a decoder gets the picture back if and only if both sizes and the packed length are ones PNG can carry |
| PngFrame.DamagedChunkRefused | system/server/fixtures/png-frame.js:21-28 | a chunk damaged within 32 consecutive bits of type and data is refused |
| Json.ParseUndoesPrint | system/server/src/auditLog.js:36-48 | JSON.parse gives back every value JSON.stringify printed |
| Json.NoProperPrefixParses | system/server/src/auditLog.js:46-52 | no proper prefix of a printed object parses |
| Json.PrintIsOneLine | system/server/src/auditLog.js:36 | a printed value has no raw newline |
| JsonGrammar.NumberIff | system/server/src/auditLog.js:48 | the numbers read are exactly those of the grammar in section 6 of RFC 8259 |
| JsonGrammar.EncodedDecodes | system/server/src/auditLog.js:48 | an escaped character is stored in its shortest encoding and stands for that character |
| Json.ValueExtends | system/server/src/auditLog.js:48 | a value read completely is read the same when more text follows |
| AuditLog.Log.constructor | system/server/src/auditLog.js:13-25 | opening adds a newline to a torn last line and nothing otherwise |
| AuditLog.Log.LogEvent | system/server/src/auditLog.js:27-38 | appends exactly one line with the entry |
| AuditLog.Log.ListEvents | system/server/src/auditLog.js:40-60 | the answer is the readable events that match, reversed in place and sliced to the limit |
| AuditLog.RepairEvents | system/server/src/auditLog.js:16-25 | the repair closes the last line and changes no event |
| AuditLog.CutLine | system/server/src/auditLog.js:36-53 | an append cut at any byte adds the event exactly when its whole text arrived, and otherwise nothing |
| AuditLog.HistoryIsKept | system/server/src/auditLog.js:13-53 | over any sequence of processes, each possibly ending in a torn append, the file yields exactly the fully written events and the cut ones whose whole text arrived, in order |
| JsonTorn.GluedDoesNotParse | system/server/src/auditLog.js:46-52 | a torn or complete object with another entry glued to it does not parse |
| AuditLog.GluedLine | system/server/src/auditLog.js:36-53 | such a line contributes no event |
| AuditLog.NextEventLostIff | system/server/src/auditLog.js:13-53 | in a process that goes on after a torn append, the next event is lost if and only if a non-empty part of the line arrived without its newline and the log was not reopened in between; the torn event is then lost as well, even if its whole text had arrived |
| AuditLog.EntryReadsBack | system/server/src/auditLog.js:27-37 | a line read back holds each part of the entry under its name, a missing operator or device as null |
| AuditLog.LineCounts | system/server/src/auditLog.js:40-53 | a line counts if and only if it parses to a value other than null, false, zero and the empty text |
| AuditLog.SliceIs | system/server/src/auditLog.js:59 | the first limit events, or all but the last ones for a negative limit |
| AuditLog.FilterIsSelect | system/server/src/auditLog.js:55-56 | filtering the parsed events by operator and device is selecting the entries themselves |
| AuditLog.ListingIsKept | system/server/src/auditLog.js:40-60 | a listing after any such history is those events that match, newest first, cut to the limit |
| ChildrenStore.CutDuringReplacement | desktop/childrenStore.js:47-61 | a power cut after any step leaves a record that reads as a version it could have before or as the new one, and only the new one after the folder is flushed |
| ChildrenStore.OlderVersionMayReturn | desktop/childrenStore.js:35-61 | conversely, until the folder is flushed every version that could be left before can still come back |
| ChildrenStore.UnflushedMayReadAsAnything | desktop/childrenStore.js:47-61 | without the flush of the temporary file a cut after the rename can leave anything |
| ChildrenStore.ReadsAsIff | desktop/childrenStore.js:28-33 | each classification of the file by what is under the name |
| ChildrenStore.Store.Prepare | desktop/childrenStore.js:52-59 | the temporary file is complete and flushed, or the record is untouched |
| ChildrenStore.Store.Publish | desktop/childrenStore.js:60-61 | the finished file replaces the record, and every cut in between leaves a complete version |
| ChildrenStore.Store.WriteAll | desktop/childrenStore.js:49-66 | the record is the new one exactly when every call up to the rename succeeds and is otherwise untouched; it returns without an error exactly when the removal succeeds too; every moment is safe against a power cut |
| ChildrenStore.Store.BeginRecord | desktop/childrenStore.js:78-81 | refuses a missing kind or bad pid, and otherwise takes the next generation of the kind |
| ChildrenStore.Store.Describe | desktop/childrenStore.js:82-86 | the first description within the allowed attempts |
| ChildrenStore.Store.FinishRecord | desktop/childrenStore.js:87-97 | a call overtaken by a remove or a newer record of its kind changes nothing; any other enters the described start time and command, unverified exactly without a start time, and leaves all other kinds; a folder or a text that is no record is never touched; the file keeps naming the processes RecordedIffNotOvertaken is about |
| ChildrenStore.Store.RemoveRecord | desktop/childrenStore.js:99-110 | takes a generation in any case, deletes exactly the matching entry and leaves all others, never touches a folder or a text that is no record, and answers true exactly when nothing failed |
| ChildrenStore.Store.RestartAfterCut | desktop/childrenStore.js:28-66 | after a cut at any moment, in a write or not, the store goes on with one of the versions allowed then, now the only one |
| ChildrenStore.CutKeepsSound | desktop/childrenStore.js:47-61 | what a cut leaves is again a sound disk, so several cuts in a row are covered |
| ChildrenStore.NoResurrection | desktop/childrenStore.js:78-110 | a record call can still write if and only if no remove and no newer record of its kind came in between |
| ChildrenStore.RecordedIffNotOvertaken | desktop/childrenStore.js:78-110 | once described, a process gets into the file if and only if no newer record call and no remove of its kind came since, whatever process the remove names |
| ChildrenStore.CancelledByAnyRemove | desktop/childrenStore.js:99-103 | one remove of the kind before the description keeps the live process out of the file for good |
| ChildrenStore.OldExitCancelsNewRecord | desktop/childrenStore.js:99-103 | for any two processes: the exit of the older one while the newer one is being described leaves a file that names neither |
| DamagedRecord.RecoveryIsLossless | desktop/damagedRecordRecovery.js:93-160 | whatever another writer does to the record between any two calls and whichever calls fail: nothing is overwritten, a name is removed only right after its content was put back, moved content stays findable, all other names keep their content, and nothing is done at all unless a move was made |
| DamagedRecord.RecoveredMeansKept | desktop/damagedRecordRecovery.js:133-160 | "recovered" is said only of exactly the text judged damaged, kept under a name that was free, and only for a file older than a known start |
| DamagedRecord.MoveIsSafe | desktop/damagedRecordRecovery.js:93-128 | whatever the move answers, its one effect is one rename to a free name, possibly put back |
| DamagedRecord.PutBackIsSafe | desktop/damagedRecordRecovery.js:120-128 | whatever putting back does, it links or copies without overwriting, and unlinks only then (that it does so whenever it can is PutBackIff) |
| DamagedRecord.PutBackIff | desktop/damagedRecordRecovery.js:120-128 | the content is back under the record's name if and only if the link, or the copy where links are refused, finds that name free and does not fail, and gone from its new name if and only if the unlink does not fail either |
| DamagedRecord.VetoPutsBack | desktop/damagedRecordRecovery.js:93-160 | a recovery that gets to its rename is recovered if and only if the text read again is the one judged; otherwise the content is put back as PutBackIff says, and without further edits or faults the record's name holds it and the new name is gone |
| DamagedRecord.MoveTakesFirstFree | desktop/damagedRecordRecovery.js:93-116 | when no call fails, the first free of the eight names is taken, it gives up only if none is free, and "missing" is only said of a record that is gone |
| DamagedRecord.JudgedIff | desktop/damagedRecordRecovery.js:28-51 | each judgement by what is under the name at the two looks and whether they fail |
| DamagedRecord.ReasonsIff | desktop/damagedRecordRecovery.js:133-160 | each reason for leaving the record alone, if and only if its condition holds |
| DamagedRecord.BootTimeIff | desktop/damagedRecordRecovery.js:56-74 | the start is known if and only if both sources are there, plausible and agree to the minute, and then it is the kernel's |
| DamagedRecord.CallsAnswer | desktop/damagedRecordRecovery.js:93-128 | what the file system calls answer when they do not fail for their own reasons |
| DamagedRecord.OlderMeansEveryTime | desktop/damagedRecordRecovery.js:77-82 | older than the start means: modified time known, and every reported time finite and before the start less the margin |
| DamagedRecord.OlderByBothClocks | desktop/damagedRecordRecovery.js:56-82 | a file that counts as older than a trusted start is older, by four minutes, than the start by the other clock too |
| DamagedRecord.RenameOverwritesIff | desktop/damagedRecordRecovery.js:99-101 | if the other writer also touches the new name, the rename overwrites a file exactly when it was put there between the look and the rename |
| DamagedRecord.RecoveryOverwritesIff | desktop/damagedRecordRecovery.js:93-160 | a whole recovery overwrites a file if and only if it gets to a rename and a file was put under the new name directly before it, whatever else the other writer does |
| DamagedRecord.OverwritingRun | desktop/damagedRecordRecovery.js:99-160 | such a recovery, with the usual margin, answers "recovered" while a good file is gone |
| DamagedRecord.Recovery.PutBackInPlace | desktop/damagedRecordRecovery.js:120-128 | the calls in place are the ones PutBackIff is about |
| DamagedRecord.Recovery.MoveAside | desktop/damagedRecordRecovery.js:93-116 | the loop over eight names, likewise |
| DamagedRecord.Recovery.RecoverInPlace | desktop/damagedRecordRecovery.js:133-160 | the whole recovery, with its reason, likewise |
| HostSupervisor.AtMostOneServer | desktop/main.js:454-581 | in every run with routed starts at most one live server was not told to stop, serverProcess names exactly that one, and there is no restart without a delay from the restart policy |
| HostSupervisor.OneServerIffSpawnsFindNone | desktop/main.js:454-581 | in every run of steps that can come, routed or not: at most one server runs at every moment if and only if each spawn after the awaits of startHostServer still finds serverProcess empty |
| HostSupervisor.LateSpawnIsSafeIff | desktop/main.js:526-562 | that spawn, as one step: it leaves at most one running server if and only if serverProcess is empty |
| HostSupervisor.OverlappingStartsRunTwoServers | desktop/main.js:526-562 | two starts outside the chain (launch, lines 954-992) both pass the check and run two servers |
| HostSupervisor.StopIsFinalIff | desktop/main.js:454-581 | in every well-formed state, however it was reached: after a stop nothing is spawned before the next start if and only if no start is on its way to its spawn, and no start waits for readiness together with a restart or with another running server that could be restarted |
| HostSupervisor.RoutedStopIsFinalIff | desktop/main.js:454-581 | the same for states that routed starts reach, where there is no other running server |
| HostSupervisor.StopAfterOverlapIsNotFinal | desktop/main.js:526-581 | two overlapping starts, one of them found ready: no start is on its way and no restart waits, and a stop is still followed by a spawn |
| HostSupervisor.EveryRoutedStopIsFinal | desktop/main.js:511-581 | when starts and stops both go through the chain, after every stop of every run nothing is spawned and nothing left running until the next start |
| HostSupervisor.RoutedStopIsFinal | desktop/main.js:511-524 | a stop while no start is in flight is final |
| HostSupervisor.StopDuringLaunchIsNotFinal | desktop/main.js:526-581 | a start made by launch (lines 980-982), which no mode switch waits for, can be stopped while it and a restart wait; a late readiness and a late failure then spawn a server |
| HostSupervisor.CrashIsRestarted | desktop/main.js:465-506 | beyond not being lost: when a server that had come up ends unasked and the policy gives a delay, then after anything else but a stop, the end of the app or another spawn, the timer brings a new running server that serverProcess names |
| HostSupervisor.LostExactlyWhenDropped | desktop/main.js:454-581 | over every run, routed or not: while a server is wanted, one is running or something will bring one (a timer, a waiting restart, a start on its way), except exactly when one of the losing steps of LostIff happened and neither a stop nor a start came since |
| HostSupervisor.LostIff | desktop/main.js:454-581 | the single steps that lose the wanted server when nothing else is left, and no others: a start that gives up, a readiness for a server already gone, a failed wait without a granted restart, an exit without one, a failed spawn |
| HostSupervisor.LostStays | desktop/main.js:454-581 | whatever comes, a lost server stays lost and nothing is spawned until a stop, the end of the app or a new start; and no start comes through the chain, because the active mode (lines 737-742) still reads host: only launch can begin one |
| HostSupervisor.RoutedLost | desktop/main.js:454-581 | in states that routed starts reach, being lost shows in the fields alone |
| HostSupervisor.ReadyAfterExitIsLost | desktop/main.js:488-581 | such a run: the first server ends while it is waited for and is then found ready |
| HostSupervisor.ChildrenAfter | desktop/main.js:454-581 | what each event does to the children: which are spawned, ended, told to stop and found ready |
| HostSupervisor.FieldsAfter | desktop/main.js:454-581 | when a restart is scheduled and counted, when a server is wanted, named, waited for and being started, event by event |
| HostSupervisor.Supervisor.SpawnHostServer | desktop/main.js:454-476 | the new child is live and named by serverProcess |
| HostSupervisor.Supervisor.ScheduleRestart | desktop/main.js:478-506 | arms the timer only if wanted, nothing runs, none is armed and the policy allows |
| HostSupervisor.Supervisor.BeginStart | desktop/main.js:526-528 | a running server is answered at once; otherwise the start goes on |
| HostSupervisor.Supervisor.FinishStart | desktop/main.js:532-562 | spawns, or gives up when the prerequisites are not met |
| HostSupervisor.Supervisor.OnReadiness | desktop/main.js:492-577 | the end of a start or restart wait, ready or not |
| HostSupervisor.Supervisor.OnExit | desktop/main.js:465-475 | the exit of a child, and whether a restart is scheduled |
| HostSupervisor.Supervisor.OnError | desktop/main.js:460-464 | the error of a child: a failed spawn, unless it was told to stop |
| HostSupervisor.Supervisor.OnTimer | desktop/main.js:488-491 | the restart timer |
| HostSupervisor.Supervisor.BeforeQuit | desktop/main.js:1078-1083 | quitting only drops the wish for a server; the timer stays armed until the stop |
| HostSupervisor.Supervisor.StopHostServer | desktop/main.js:511-524 | the intentional stop |
| OrphanRecovery.RecoveryIsSafe | desktop/orphanRecovery.js:24-74 | for every process table and its changes: each signal directly follows a look that found that pid with the recorded start time and command leading its group; at most one SIGTERM and one group SIGKILL per record; what is forgotten was last seen gone or replaced; giving up leaves the blocking and later records stored |
| OrphanRecovery.ForgetsOnlyWhatIsGone | desktop/orphanRecovery.js:24-74 | whenever a record is forgotten, the look directly before was answered with no such process or, for a complete record, with another one; a recovery that gives up does so at a look that was not answered or found the process still there |
| OrphanRecovery.VerdictIff | desktop/processInfo.js:32-53 | each verdict by what the two questions of a look were answered |
| OrphanRecovery.HandledIff | desktop/orphanRecovery.js:25-72 | one record by what its looks were answered: kept and blocking, forgotten without a signal, or asked to stop, and then what the last look decides |
| OrphanRecovery.UnansweredKeepsTheRecord | desktop/orphanRecovery.js:38-46 | a first look at a live process with an unanswered question ends the recovery with that record and all later ones stored |
| OrphanRecovery.WatchedHowLong | desktop/orphanRecovery.js:54-68 | the looks after a request: one per round until something else is seen, and up to eight more, and a last one, after the group was forced |
| OrphanRecovery.TerminatedWereAsked | desktop/orphanRecovery.js:24-74 | the number of terminated processes is that of the forgotten records whose process was asked to stop |
| OrphanRecovery.WithoutIs | desktop/orphanRecovery.js:26 | forgetting takes exactly the records of this kind and id |
| OrphanRecovery.HandlingIsCareful | desktop/orphanRecovery.js:25-72 | the same for one record, and a record counts as terminated exactly when it was asked and is done |
| OrphanRecovery.ForcedOnlyAfterTheGracePeriod | desktop/orphanRecovery.js:48-66 | the group is forced only after the process was asked and then watched for at least the timeout |
| OrphanRecovery.PollWatches | desktop/orphanRecovery.js:54-59 | the grace period only sleeps and looks, and sleeps for all its rounds if it is still the same process |
| OrphanRecovery.SignalsHitIff | desktop/orphanRecovery.js:24-74 | every signal of a recovery goes to the id of one of its records, and the process with that id at the look directly before is the recorded one if and only if the id was not used again between the two questions of that look |
| OrphanRecovery.SameIsTrueIff | desktop/processInfo.js:32-53 | a look that finds "the same" is true of the process if and only if its id was not used again between the two questions |
| OrphanRecovery.LookMayMixTwoProcesses | desktop/processInfo.js:32-53 | for every verified record there is a look that finds "the same" of another process |
| OrphanRecovery.Recovery.PollUntilChanged | desktop/orphanRecovery.js:54-59 | the polling loop |
| OrphanRecovery.Recovery.AwaitEnd | desktop/orphanRecovery.js:65 | the loop after the group was forced |
| OrphanRecovery.Recovery.ForceGroup | desktop/orphanRecovery.js:60-68 | the last look before the force, the force and the looks after it |
| OrphanRecovery.Recovery.HandleRecord | desktop/orphanRecovery.js:26-71 | the body of the loop over records |
| OrphanRecovery.Recovery.RecoverOrphans | desktop/orphanRecovery.js:24-74 | the loop over records, with what it returns or that it throws |
| RestartPolicy.WindowHolds | desktop/serverSupervisor.js:7-27 | with a clock that does not go back, the list is the accepted history since the last reset cut to the window, and accepted restarts maxRestarts or more apart lie strictly more than the window apart |
| RestartPolicy.DelayFromHistory | desktop/serverSupervisor.js:13-19 | each answer in terms of the history alone: none when the window is full, otherwise the delay doubled per restart in the window, capped |
| RestartPolicy.LookGivesWindowIff | desktop/serverSupervisor.js:7-27 | for any clock and any run: a look leaves exactly the accepted restarts of the window if and only if none dropped before lies in it again and none before it stands behind one inside it |
| RestartPolicy.PrunedIsWindowIff | desktop/serverSupervisor.js:7-10 | dropping from the front is filtering by the window exactly for lists in which nothing older stands behind something newer |
| RestartPolicy.BackwardClockKeepsOldRestarts | desktop/serverSupervisor.js:7-10 | with a clock that goes back the list can keep what lies before the window |
| RestartPolicy.Policy.Prune | desktop/serverSupervisor.js:7-10 | the loop drops exactly the front older than the cutoff |
| RestartPolicy.Policy.NextRestart | desktop/serverSupervisor.js:13-19 | the list and the delay after next |
| RestartPolicy.Policy.RecentRestarts | desktop/serverSupervisor.js:20-23 | the pruned list and its length |
| RestartPolicy.Policy.ResetRestarts | desktop/serverSupervisor.js:24-26 | the list is empty |
| TopologyTransition.OneRunOneMode | desktop/topologyTransition.js:5-24 | in every sequence of calls, failures, stops and modes going down: runs never overlap, they begin in order, at most one mode is active at every step |
| TopologyTransition.SwitchEndsWhereItShould | desktop/topologyTransition.js:7-19 | a successful switch ends in exactly its target; a failed one whose restore succeeds ends in exactly the mode it began in |
| TopologyTransition.CallFollowsScript | desktop/topologyTransition.js:7-20 | over every run, the events of one call are one of nine histories, and each leaves it in exactly one place: stops in order, then the start, then after a failed start the restore of the mode it began in |
| TopologyTransition.CallEndsIff | desktop/topologyTransition.js:7-20 | a call has failed if and only if its current failed, a stop threw or a restore ended for it, and has succeeded if and only if its current or its start did |
| TopologyTransition.FailedStartRestores | desktop/topologyTransition.js:13-19 | after a failed start the call is restoring the mode it began in until that restore ends, and then it has failed |
| TopologyTransition.SwitchEndsInOneMode | desktop/topologyTransition.js:7-19 | so it ends with exactly the mode it began in when the restore succeeds, and with exactly its target when the start does |
| TopologyTransition.FailedSwitchCanLeaveAMode | desktop/topologyTransition.js:15-17 | runs in which a throwing stop, and a failing restore, leave a mode active |
| TopologyTransition.GivesUpIff | desktop/topologyTransition.js:26-29 | stopAll gives up if and only if one of its stops throws |
| TopologyTransition.StopAllWaitsFor | desktop/topologyTransition.js:26-29 | stopAll waits for exactly the calls made before it |
| TopologyTransition.EveryCallCanEnd | desktop/topologyTransition.js:21-23 | however earlier calls fail, every call can come to its end without another call |
| TopologyTransition.OwnStepsRunOut | desktop/topologyTransition.js:7-20 | each step of a call brings it closer to its end and no other step sets it back |
| TopologyTransition.NeverStuck | desktop/topologyTransition.js:21-23 | as long as a call is open, it or one before it can take a step |
| TopologyTransition.StopAllStopsAll | desktop/topologyTransition.js:26-29 | after stopAll, with no call made after it, no mode is active and every call is over; when one of its stops throws, no mode is active that it had stopped before |
| TopologyTransition.ThrowingStopSkipsRestore | desktop/topologyTransition.js:10-18 | a stop that throws fails the call without a restore: at most the target is active when its own stop threw, at most the mode the call began in when another stop threw |
| TopologyTransition.SurvivesStopAllIff | desktop/topologyTransition.js:26-29 | for every run in which stopAll was asked for: some mode can be active at its end if and only if a call made after it still has a mode to activate, or a mode is active that its stops have passed |
| TopologyTransition.LateSwitchSurvivesStopAll | desktop/topologyTransition.js:26-29 | a run in which a call made between the stops leaves its mode active |
| TopologyTransition.ActiveModeIs | desktop/main.js:737-742 | with at most one mode active, activeTopologyMode names exactly what is active |
| TopologyTransition.Transition.TransitionTo | desktop/topologyTransition.js:5-23 | a call joins the end of the chain |
| TopologyTransition.Transition.BeginRun | desktop/topologyTransition.js:7-11 | a run notes the previous mode and answers at once or starts stopping |
| TopologyTransition.Transition.StopOne | desktop/topologyTransition.js:10-12 | one round of the loop over the modes to stop |
| TopologyTransition.Transition.EndStart | desktop/topologyTransition.js:13-18 | the start succeeded, or its target is stopped again and the restore begins, or that stop throws and the restore is skipped (over runs FailedStartRestores) |
| TopologyTransition.Transition.EndRestore | desktop/topologyTransition.js:17-18 | the restore ended, and the call fails |
| TopologyTransition.Transition.Interrupt | desktop/topologyTransition.js:28 | what comes while a stop is awaited |
| TopologyTransition.Transition.StopAllOne | desktop/topologyTransition.js:28 | one stop of stopAll, or its failure |
| TopologyTransition.Transition.StopAllModes | desktop/topologyTransition.js:28 | the loop of stopAll with anything but another call between its stops: it succeeds exactly when no stop throws, and then nothing is active; otherwise nothing is active that was stopped before |
| LiveView.FieldsFollowTheHistory | system/client/liveViewController.js:50-183 | in every run the history is lawful, the fields are exactly what the history says, and the armed timers are one interval while on plus one timeout for the open request |
| LiveView.EventAdds | system/client/liveViewController.js:50-183 | in every run, the history and the next event alone say what is asked, answered, rendered, failed, postponed or stopped next, and nothing else is |
| LiveView.OneRequestAtATime | system/client/liveViewController.js:84-94 | a second request is sent only after the first was answered, failed, postponed or the view was stopped |
| LiveView.ResolvedOnce | system/client/liveViewController.js:160-174 | no request is resolved twice or after a stop, so no late reply or timeout counts |
| LiveView.RenderedFrameIsFresh | system/client/liveViewController.js:118-131 | a rendered frame answers a request after which no input came |
| LiveView.ErrorStopIff | system/client/liveViewController.js:172-183 | the error stop comes if and only if a request has just failed as the maxFailures-th with no answered request, start or stop in between; postponed requests do not reset the count |
| LiveView.BudgetIsNeverLeftSpent | system/client/liveViewController.js:172-183 | no event ends with the budget spent and the view not stopped |
| LiveView.StaleRepliesChangeNothing | system/client/liveViewController.js:122-164 | a reply has an effect if and only if it names the device and number of the open request |
| LiveView.TimeoutKeeps | system/client/liveViewController.js:96-98 | a timeout that fires is that of the open request |
| LiveView.StartAnswerHoldsIff | system/client/liveViewController.js:50-60 | start can answer true for a view already off again: exactly when its first request could not be sent and one failure is the budget |
| LiveView.Controller.StartView | system/client/liveViewController.js:50-60 | start, in terms of the step function the lemmas are about |
| LiveView.Controller.TurnOff | system/client/liveViewController.js:62-72 | stop |
| LiveView.Controller.OnTick | system/client/liveViewController.js:74-116 | tick, and that it answers true exactly when a request was sent |
| LiveView.Controller.OnTimer | system/client/liveViewController.js:57-98 | the interval and the timeout |
| LiveView.Controller.SupersedePendingFrame | system/client/liveViewController.js:118-120 | input marks the open request |
| LiveView.Controller.AcceptFrame | system/client/liveViewController.js:122-131 | a frame, and whether it is to be rendered |
| LiveView.Controller.AcceptError | system/client/liveViewController.js:133-137 | an error reply |
| LiveView.Controller.AcceptDelayed | system/client/liveViewController.js:139-144 | a postponed reply |
| LiveView.Controller.OnVisibility | system/client/liveViewController.js:146-154 | a change of visibility |
| LiveView.Controller.ClearPendingRequest | system/client/liveViewController.js:166-170 | the timeout is disarmed with the request |
| LiveView.Controller.Fail | system/client/liveViewController.js:172-183 | a failure and the error stop |
| FramePipeline.NewestWins | system/client/phoneStage.js:245-321 | one drain loop at most; painted frames are arrivals in order; none that arrived before a clear is painted after it; each decoded frame was the newest at that moment |
| FramePipeline.LatestFrameIsTaken | system/client/phoneStage.js:295-317 | the latest frame not followed by a clear is always taken for decoding, at the latest when the decode in progress ends |
| FramePipeline.PictureFollowsTheHistory | system/client/phoneStage.js:245-268 | hasPicture says exactly whether something was painted since the last clear |
| FramePipeline.ShownIff | system/client/phoneStage.js:239-298 | in every run, a frame is shown if and only if it has an image and comes from the stream set last, with no clear of the stage since, or from the fallback path |
| FramePipeline.PaintedIff | system/client/phoneStage.js:306-319 | in every run, the end of a decode paints its frame if and only if the image can be drawn and the picture was not cleared since the frame arrived |
| FramePipeline.ClearedIff | system/client/phoneStage.js:239-262 | a clear, and nothing else, erases picture and slot and makes what is held too old to be painted |
| FramePipeline.OldStreamIsPaintedIff | system/client/phoneStage.js:239-309 | after any run and setStream, a frame of another stream can be painted without another arrival if and only if the slot or the decoder held one of the current generation |
| FramePipeline.ClearedStreamIsNeverPainted | system/client/phoneStage.js:245-262 | with a clear directly before setStream it never can |
| FramePipeline.OldStreamCanBePainted | system/client/phoneStage.js:275-309 | such a run: stream 1 is painted while stream 2 is set |
| FramePipeline.PhoneStage.HandleBinary | system/client/phoneStage.js:275-283 | only a frame of the current stream with an image is shown |
| FramePipeline.PhoneStage.ShowFrame | system/client/phoneStage.js:295-298 | the frame takes the slot, and a loop starts if none runs |
| FramePipeline.PhoneStage.DrainHead | system/client/phoneStage.js:303-305 | the head of the loop |
| FramePipeline.PhoneStage.OnDecoded | system/client/phoneStage.js:306-319 | the rest of the loop body and the end of the loop |
| FramePipeline.PhoneStage.Erase | system/client/phoneStage.js:245-262 | clearPicture and clear |

## Left out

- Compression itself is a library: the PNG results hold for any deflate/inflate pair. Decoders of filtered rows, interlacing and other colour types are not modelled, because the encoder writes none.
- Text encoding in the audit log: strings are UTF-8 byte sequences, so lone surrogates and the replacement of an incomplete character at a cut are not modelled; a cut text is still a proper prefix. Numbers are their printed text, so a number too small for a double is not zero here.
- Older records of the outbox: runs start from an empty store, so the older states (retrying, needs_reconciliation, records without counts) are branches of the model that no run reaches; an outbox file that does not parse is not modelled.
- RecoveryIsLossless: contents are decoded texts, as the check of the moved file compares them, so two byte sequences that decode alike are one; a copy that fails half-way leaves nothing.
- RecoveryIsSafe: removing a record from the store is assumed to succeed; a store that cannot be listed ends the recovery before it begins.
- AtMostOneServer: readiness may succeed or fail at any time instead of being polled over HTTP, and a delay of the restart policy is a yes or no here; RestartPolicy has the delays themselves. The site agent's supervision is similar and is not modelled.
- SwitchEndsWhereItShould: a start or restore that reports success has made its mode active; the windows behind the modes are not modelled.
- Callbacks of the live view: the page's callbacks do not call back into the controller, and status wording is not modelled.
- Painting: the canvas, sizes, frame rate and the decode-error notice are not modelled; a frame is its arrival number and generation.
- The pauses between the attempts of describe in record(): the answer comes at any time; NoResurrection is about the order of calls and answers, Describe about the attempts, FinishRecord about what is written then.
- Claims and requests of the notification outbox whose write fails, and two processes using one outbox file at once: the source relies on a single relay process. An outcome that cannot be recorded is modelled (Outbox.Run).
- Several torn appends in a row within one process: NextEventLostIff is about one and the event after it.
- A temporary file name that already exists in the children store's folder: names are random there.
- findFreePort, the reading of ps output, legacy frames' base64, list() sorting and diagnostics: lookups without state.
- Gestures, text batching, menus, dialogs, windows and update download: user interface.
- Queueing of device work, device leases, provisioning and database repositories: not part of this model.
