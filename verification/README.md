# porkbot verification

A Dafny model of the stateful and arithmetic core of the porkbot repository, with proofs of what
that core promises. One module models one source file or one protocol between several.

- **Backups.** `BackupCipher` specifies the encrypted object on flat bytes, and `BackupCuts` what a
  reader hands out of a damaged one; `BackupStream` is the buffering writer and reader as they run,
  proved equal to the specification for every chunking; `BackupArchive` adds sizes, checksums and
  storage; `BackupRun` is the nightly run with its drill, every step free to fail, and any sequence
  of them. `ByteStreams` holds bytes and chunked streams.
- **Formats.** `Tar` is the ustar writer and reader (the "ustar Interchange Format" of
  POSIX.1-2017's pax utility); `Cursors` is the signed cursor over base64url (section 5 of RFC 4648).
- **Run events.** `EventFold` is the cursor discipline, `EventReducer` what one event does,
  `ReducerLaws` and `ReducerStreams` what every accepted stream keeps, and `ReducerRecords` that
  what a client then shows of each run, call and message is what its events said. `Session` is the offline
  agent session as two interleaved fibers; `SessionScript` proves that, however they interleave,
  the script is played as written: an approved call is executed, a denied one is not. `SessionReplay`
  proves exactly which of its streams a client accepts, and `SessionIds` which ids and names make
  one it refuses.
- **Runs.** `RunLease` is the fenced life of one run across workers, watchdog, tool-call ledger and
  computer lease.
- **Transcripts.** `Transcript` merges rows, stream and runs; `Conversation` rebuilds what a new
  run continues.
- **Controllers.** `Composer`, `RateLimiter`, `Computers`, `Lifecycle`, `Secrets` and `Webhooks`
  are the remaining state machines. `Text` is `trim`.

Code that changes fields in place is a class whose methods are proved against a specification
function of the old state; the theorems are about that function over every run. Protocols between
fibers, processes or awaits are state machines whose actions are the atomic steps, over every
interleaving. Cryptography appears as a value (`Crypto`, `Primitives`), and a lemma that needs a
fact about it has that fact in its `requires`; no such fact is assumed anywhere else.

## Where the code and its promises part

Each has the input that shows it and, beside it, the exact condition under which the code does
keep the promise.

- A reader of a damaged backup sees plaintext before the failure (`apps/backup/src/cipher.ts:176-180`
  says otherwise): `FirstRecordBeforeTheFailure`; exactly when: `PlaintextBeforeFailureWhen`, and
  exactly how much: `CutObject`.
- The reducer lets a completed call end up denied, and a run complete under an open gate:
  `DeniedSuccessIsReachable`, `CompletedUnderOpenGateIsReachable`; exactly when not:
  `BarrierExactly`, `ApplyKeeps`.
- Arrival order matters when one number names two events: `ConflictingEventsKeepTheFirst`.
- A call with two gates takes a later decision than the first: `RepeatedGateTakesALaterDecision`,
  `FirstDecisionWinsWhen`.
- Ids that collide make a stream the client refuses: the `...IsRefused` lemmas of `SessionIds`. So
  does an empty stop reason: `EmptyStopReasonIsRefused`. Exactly when: `SessionReplaysWhen`.
- A terminal run can stay leased (`packages/db/src/run-leases.ts:57-61` says never):
  `FailedRunStillLeased`, `TerminalRunIsUnleasedWhen`. A failed run can leave a call in flight:
  `FailedWorkLeavesACallOpen`, `EndingSettlesCallsWhen`. A late begin reads as in flight to the
  run's next execution: `LateBeginReadsAsInFlight`, `ForeignCallWhen`, `LeavesFlightWhen`.
- The watchdog can free a computer whose lease its holder has just renewed:
  `OldScanFreesALiveComputer`, `LiveComputerIsFreedWhen`, `OldScanHitsARenewal`.
- A failed dump can stay in the destination: `BrokenDumpIsStored`, `DumpStaysWhen`. A good backup
  can read as failed: `GoodBackupReadsAsFailed`, `LostReplyReadsAsFailed`, `SettlesTwiceWhen`.
  Retention can remove the newest recorded backup (`packages/core/src/backup-policy.ts:204-213`
  says it keeps one): `PruneBeforeSettlementLosesTheNewest`, `NewestSuccessKeptWhen`.
- An idle sweep can stop a machine under a command: `OverlapCutsACommandOff`,
  `CommandUnderAPendingStop`; exactly when: `CanBeCutOffWhen`; which commands: `CutOffBecause`,
  `MarkedWhen`.
- An answer can be dropped from a conversation: `CollidingAnswerIsDropped`, `RunIsWholeWhen`.
- An accepted webhook delivery can be dispatched again: `LateThrowReleasesAnothersRow`; exactly
  when: `CanRepeatWhen`, `ReleaseIsSafeWhen`. A store can undo a selection: `WriteUndoesSelection`,
  `OnlyTheNewestReadLands`.
- Names and sizes do not always survive a tar header: `RoundTrip` in `Tar` is an equivalence. A
  reader need not end: `NegativeSizeComesRound`; exactly when it does: `EndsWhen`.

## Model

| member | source | states |
|---|---|---|
| `BackupCipher.RoundTrip` | apps/backup/src/cipher.ts:181-299 | with a seal/open pair that inverts, reading a written object under a keyring that holds its key ends normally and yields the plaintext, slice by slice |
| `BackupCipher.OnlyWrittenObjects` | apps/backup/src/cipher.ts:176-299 | no forged ciphertext opening, any byte stream at all makes the reader yield only a record-aligned prefix of one written plaintext, and a normal end means the stream is that object byte for byte (the comment at 176-180 promises failure before any plaintext; how much comes out first is counted by the next three) |
| `BackupCuts.PlaintextBeforeFailureWhen` | apps/backup/src/cipher.ts:176-299 | no forgery, a read hands out plaintext and then fails exactly when the stream begins with a written object's header and first data record and is not all of that object from a source that ends |
| `BackupCuts.CutObject` | apps/backup/src/cipher.ts:245-298 | a written object cut after k bytes yields exactly its whole data records before it fails, one per 65,556 bytes after the header and all once the last is there, and ends normally only uncut |
| `BackupCuts.FirstRecordBeforeTheFailure` | apps/backup/src/cipher.ts:176-299 | the header and one record of any longer object: that record's plaintext is out before the failure |
| `BackupCipher.CompletesExactly` | apps/backup/src/cipher.ts:181-299 | the reader ends normally if and only if the source did not throw and the stream is exactly an object the keyring can open: truncation, reordering, splicing and trailing bytes all fail |
| `BackupCipher.ReplaysOnly` | apps/backup/src/cipher.ts:245-298 | from any counter, what is read is the object's own records in order from that counter, whatever follows in the stream |
| `BackupCipher.HeaderFixesObject` | apps/backup/src/cipher.ts:241-268 | a record that opens under a header belongs to the one object with that header, at the counter and final flag the reader used |
| `BackupCipher.AadInjective` | apps/backup/src/cipher.ts:63-70 | the bound data names header, counter and final flag without ambiguity |
| `BackupCipher.NoncesDistinct` | apps/backup/src/cipher.ts:72-79 | no two counters of one stream share a nonce (fixed field plus counter, section 3.2 of RFC 5116) |
| `BackupCipher.EncodedSize` | apps/backup/src/cipher.ts:112-174 | an object of n plaintext bytes is exactly 30 + length of the key id + n + 20 * (ceil(n / 65536) + 1) bytes |
| `BackupCipher.SlicesConcat` | apps/backup/src/cipher.ts:136-171 | the record plaintexts from any counter on are the plaintext from that offset on |
| `ByteStreams.BigEndianRoundTrip` | apps/backup/src/cipher.ts:64-79 | a 32-bit counter reads back from its big-endian bytes |
| `BackupStream.RecordWriter.Copy` | apps/backup/src/cipher.ts:144-150 | one copy fills the buffer with the next bytes of the source, in place, and never past it |
| `BackupStream.RecordWriter.Flush` | apps/backup/src/cipher.ts:151-171 | a full or last buffer leaves as exactly the next record; the writer throws if and only if the counter is spent, and then every record it could number has been yielded |
| `BackupStream.RecordWriter.Absorb` | apps/backup/src/cipher.ts:141-158 | a chunk of any size, empty included, moves the writer forward by exactly that chunk |
| `BackupStream.RecordWriter.Finish` | apps/backup/src/cipher.ts:160-173 | the last partial record and the terminal record follow; it throws exactly when the plaintext needs more than 2^32 records |
| `BackupStream.RecordWriter.Close` | apps/backup/src/cipher.ts:141-173 | the end of the source, or its throw, after which exactly the full records are out |
| `BackupStream.EncryptBackupStream` | apps/backup/src/cipher.ts:112-174 | what is yielded depends on the concatenated source only, never on its chunks: header, records and terminal record; the full records and the source's failure if it throws; or the records up to the counter's end |
| `BackupStream.YieldsConcat` | apps/backup/src/cipher.ts:112-174 | the writer's chunks concatenate to the object's bytes |
| `BackupStream.MeteredSource.Next` | apps/backup/src/archive.ts:106-124 | a pull hands on the next chunk, and at the end throws exactly when the body failed or size or checksum differ |
| `BackupStream.StreamReader.Take` | apps/backup/src/cipher.ts:189-205 | `take` returns the next bytes of the stream across any chunk boundary, and fails exactly when too few are left |
| `BackupStream.StreamReader.Drain` | apps/backup/src/cipher.ts:269-283 | after the terminal record the source is pulled to its end, so its verification always runs |
| `BackupStream.StreamReader.DecryptOne` | apps/backup/src/cipher.ts:245-295 | one turn of the record loop agrees with the flat specification of the rest of the stream |
| `BackupStream.StreamReader.ReadHeader` | apps/backup/src/cipher.ts:207-242 | the header is parsed, or refused for the same reason, as on the flat bytes |
| `BackupStream.StreamReader.Decrypt` | apps/backup/src/cipher.ts:181-299 | the chunked reader yields and ends exactly as the flat specification does on the concatenated bytes |
| `BackupArchive.Archive.Put` | apps/backup/src/archive.ts:73-94 | a put stores the encoded object and records its true size and checksum, or leaves storage as it was: a source that throws, a refused cipher, a refusing storage |
| `BackupArchive.Meter` | apps/backup/src/archive.ts:77-85 | the running size and hash are those of the whole body |
| `BackupArchive.Archive.Read` | apps/backup/src/archive.ts:96-127 | a read is the reader over the stored bytes; ending normally with `expected` given means the stored object has that size and checksum |
| `BackupArchive.Archive.Remove` | apps/backup/src/archive.ts:133-142 | keys go in order up to the one whose removal throws, and nothing else goes |
| `BackupArchive.CompleteMeansSourceEnded` | apps/backup/src/archive.ts:96-127 | a read that ends normally drained its source without a throw, so the checks after the last chunk ran and passed |
| `BackupArchive.PutThenRead` | apps/backup/src/archive.ts:73-127 | reading a put object with its recorded size and checksum gives the plaintext back, however the store chunks it |
| `BackupArchive.CompletedReadIsAWrittenObject` | apps/backup/src/archive.ts:96-127 | a read that ends normally is one written object and its whole plaintext |
| `Tar.TarHeader` | packages/adapters/src/computer-archive.ts:21-43 | the header built in place, checksum field last, is the specified 512 bytes |
| `Tar.BlankHeader` | packages/adapters/src/computer-archive.ts:22-34 | the fields land at their offsets with the checksum blanked by spaces |
| `Tar.Write` | packages/adapters/src/computer-archive.ts:23-33 | `Buffer.write` changes at most the given width and nothing around it |
| `Tar.SumBytes` | packages/adapters/src/computer-archive.ts:35-39 | the loop computes the unsigned byte sum |
| `Tar.ReadTar` | packages/adapters/src/computer-archive.ts:61-82 | the loop's first turns, all of them if it ends within them, are the specified ones wherever a size leads, backwards and below zero included |
| `Tar.EndsWhen` | packages/adapters/src/computer-archive.ts:61-82 | the reader of any buffer ends if and only if its offset never comes round |
| `Tar.NegativeSizeComesRound` | packages/adapters/src/computer-archive.ts:61-82 | before any bytes, a first header whose size is minus one block keeps the reader at the start for ever |
| `Tar.ChecksumFits` | packages/adapters/src/computer-archive.ts:35-42 | the checksum always fits six octal digits |
| `Tar.HeaderChecks` | packages/adapters/src/computer-archive.ts:21-43 | a written header carries the sum a ustar reader computes, and is never mistaken for the zero terminator |
| `Tar.OctalRoundTrip` | packages/adapters/src/computer-archive.ts:24-31 | octal text reads back as the number |
| `Tar.NameRoundTrip` | packages/adapters/src/computer-archive.ts:24-24 | a name comes back from its field exactly when it fits 100 bytes and every NUL in it has a line terminator somewhere after it |
| `Tar.SizeRoundTrip` | packages/adapters/src/computer-archive.ts:28-28 | a size comes back exactly when it is below 8^11, and otherwise reads smaller |
| `Tar.RoundTrip` | packages/adapters/src/computer-archive.ts:46-82 | reading a written archive gives the sorted entries if and only if every entry's name and size survive their fields; the sorted entries are a permutation |
| `Tar.SortSorts` | packages/adapters/src/computer-archive.ts:47-48 | entries are written in name order |
| `Tar.OrderIndependent` | packages/adapters/src/computer-archive.ts:46-58 | entries with distinct names give the same archive in any order |
| `EventFold.DrainPending` | packages/core/src/event-reducer.ts:640-656 | the draining loop equals its recursive specification |
| `EventFold.ReduceEvents` | packages/core/src/event-reducer.ts:689-705 | the batch loop equals receiving one event after another |
| `EventFold.ArrivalOrderIrrelevant` | packages/core/src/event-reducer.ts:616-705 | two deliveries of the same events, in any order and with any replays, give the same snapshot or the same failure, provided no number names two events |
| `EventFold.ConflictingEventsKeepTheFirst` | packages/core/src/event-reducer.ts:658-687 | when one number does name two events, the order decides: the first to arrive stays |
| `EventFold.InOrder` | packages/core/src/event-reducer.ts:616-656 | events that arrive in order are a plain replay |
| `EventReducer.SameEventsSameSnapshot` | packages/core/src/event-reducer.ts:658-705 | the same for whole thread snapshots and wire values |
| `ReducerLaws.WithRunStores` | packages/core/src/event-reducer.ts:224-231 | storing a run replaces that run only |
| `ReducerLaws.WithMessageStores` | packages/core/src/event-reducer.ts:233-244 | storing a message replaces that message only |
| `ReducerLaws.CompleteMessagesKeeps` | packages/core/src/event-reducer.ts:295-326 | closing a run's messages changes no text, and adds at most the empty one it closes; which messages it completes is `ReducerRecords.ClosedMessages` |
| `ReducerLaws.ApplyKeeps` | packages/core/src/event-reducer.ts:590-614 | every accepted event moves each run's status along the transition table only, and keeps the snapshot sound (unique ids, waiting exactly while a gate is open) if and only if it is not a second start of a waiting run |
| `ReducerStreams.BarrierExactly` | packages/core/src/event-reducer.ts:395-523 | a settled call has an approved gate or none, and an accepted event keeps this if and only if it does not ask for approval of a call already settled |
| `ReducerStreams.StreamKeeps` | packages/core/src/event-reducer.ts:616-705 | over any accepted stream without those two events, all of it holds and a terminal status never changes |
| `ReducerStreams.EveryStream` | packages/core/src/event-reducer.ts:188-200 | and so from the empty thread on |
| `ReducerStreams.DeniedSuccessIsReachable` | packages/core/src/event-reducer.ts:395-429 | a stream the reducer accepts in which a completed call ends up denied |
| `ReducerStreams.CompletedUnderOpenGateIsReachable` | packages/core/src/event-reducer.ts:254-276 | a stream the reducer accepts in which a run completes under an open gate |
| `ReducerStreams.TextIsDeltas` | packages/core/src/event-reducer.ts:342-369 | an assistant message's text is its deltas in order, over every accepted stream |
| `ReducerRecords.RecordsAreTold` | packages/core/src/event-reducer.ts:395-614 | over every accepted stream, what the thread shows of a run is what its own events said: its status, failure text and cancel reason; for each call its request, its gate and decision, its outcome and error; and every message of an ended run is complete, every open one being an assistant's of a run that goes on |
| `ReducerRecords.EndCompletes` | packages/core/src/event-reducer.ts:525-588 | after an accepted completion, failure or cancellation every assistant message of that run is complete, and no other message has changed its id, text, role or flag |
| `ReducerRecords.ClosedMessages` | packages/core/src/event-reducer.ts:295-326 | closing completes every assistant message of the run and touches nothing else of any message; the one it names is added, empty and complete, if it is not there |
| `ReducerRecords.OtherMessages` | packages/core/src/event-reducer.ts:342-393 | after any other accepted event the messages are those there were, in order, but that a delta adds its text to the one it names, flag as it was, or adds it open, and a steer adds one that is complete |
| `ReducerRecords.EventStores` | packages/core/src/event-reducer.ts:395-588 | an accepted event stores one run, made of what the event says, and leaves every other run as it was |
| `ReducerRecords.RefusedWhen` | packages/core/src/event-reducer.ts:254-588 | an event is refused exactly for its run's status, or else for the call or message it names, with that error: nothing starts, completes or goes on out of turn, a call is requested, gated, decided and ended once, never under an open gate nor well after a denial, and no message changes hands |
| `ReducerRecords.StatusIs` | packages/core/src/event-reducer.ts:254-293 | the status an accepted event leaves its run with: waiting from a request for approval until no gate is open, running otherwise, the terminal one at its end; every other run is as it was |
| `Session.EveryStreamIsWellShaped` | packages/adapters/src/agent-runtime-emulator.ts:175-199 | over every interleaving of script, commands and interrupts, events carry consecutive numbers from `startSeq`, begin with `run.started`, and at most one is terminal, which is last |
| `Session.FinishedStreamIsFinal` | packages/adapters/src/agent-runtime-emulator.ts:180-199 | once finished, no action delivers or fails anything again |
| `Session.GatesResolveWithTheFirstDecision` | packages/adapters/src/agent-runtime-emulator.ts:214-287 | unless two gates the script can reach are for one call, every gate resolves with the first decision ever delivered for its call, early or late, and no gate waits whose decision was delivered |
| `Session.DecidedGateWakes` | packages/adapters/src/agent-runtime-emulator.ts:214-287 | a script at a decided gate can go on, at once or after the command loop's next step; where it goes, and that an approved call is executed first, is `SessionScript.ScriptIsFollowed` |
| `Session.FirstDecisionWinsWhen` | packages/adapters/src/agent-runtime-emulator.ts:214-287 | for every script, with or without tools: the first decision delivered for a call is what its gates resolve with, in every run, if and only if no two gates with every earlier step passable are for one call |
| `Session.RepeatedGateTakesALaterDecision` | packages/adapters/src/agent-runtime-emulator.ts:402-425 | for every such pair of gates, a run in which the second takes an approval after the first decision delivered was a denial |
| `Session.Drive` | packages/adapters/src/agent-runtime-emulator.ts:377-462 | every step with passable steps before it is reached by some run |
| `SessionScript.ScriptIsFollowed` | packages/adapters/src/agent-runtime-emulator.ts:377-462 | over every interleaving of script, commands and interruption, what has been delivered, the steers aside, is what the script amounts to read one step after the other, with the outcomes the gates resolved with and the answers the tools gave: an approved call is executed, a denied one fails with the denial's reason, nothing is skipped or doubled |
| `SessionScript.PlaysPaired` | packages/adapters/src/agent-runtime-emulator.ts:390-442 | and read that way every call that was requested is settled directly after its request, but for one still open at the end of an unfinished, cancelled or failed stream |
| `SessionScript.GatedCallIsSettled` | packages/adapters/src/agent-runtime-emulator.ts:402-425 | each gated call the script has come past was requested and then, directly after, settled: failed with the denial's reason if its gate was denied, and with what the tools or the script answer if it was approved |
| `SessionScript.CompletedSettlesEveryCall` | packages/adapters/src/agent-runtime-emulator.ts:377-462 | when a run completes, every call it requested was settled directly after its request, steers aside, and exactly once |
| `SessionScript.GatesAnswerDecisions` | packages/adapters/src/agent-runtime-emulator.ts:214-287 | unless two gates are for one call, the outcome each gate resolved with is the first decision delivered for it |
| `SessionScript.SteersAreDelivered` | packages/adapters/src/agent-runtime-emulator.ts:510-519 | over every interleaving the steers delivered are those taken before the session finished, once each and in order |
| `SessionScript.WaitsUseSteers` | packages/adapters/src/agent-runtime-emulator.ts:436-442 | and the script comes past its nth wait for a steer only with n steers taken, each wait using up one |
| `SessionScript.StopEndsTheRun` | packages/adapters/src/agent-runtime-emulator.ts:469-508 | a stop cancels a session that goes on, with its reason, and then ends the script; leaving the scope does both at once as an interruption; neither adds to a finished stream |
| `SessionScript.SlotMovesWhen` | packages/adapters/src/agent-runtime-emulator.ts:214-287 | a call's slot changes only where a gate puts its wait or takes the early decision it finds, where a decision takes the wait it finds or stays as an early one, and where a wait that is over withdraws its own slot, never another's |
| `SessionScript.CommandIsFinished` | packages/adapters/src/agent-runtime-emulator.ts:264-287 | a decision on its way resolves its own wait, once, and no other, and the next command is free to be taken |
| `SessionScript.FailedIsOver` | packages/adapters/src/agent-runtime-emulator.ts:471-487 | in every reached state a stream that failed has no script left to run |
| `SessionReplay.SessionReplaysWhen` | packages/core/src/event-reducer.ts:658-705 | for every session and interleaving, and every client that has not seen the run: it accepts the delivered stream whole if and only if every event parses, no steer names an earlier message, no delta or closing names an earlier steer, and no call is requested twice; what it then holds tracks the session: the run, its calls so far, the open call, its messages by role |
| `SessionIds.FreshIdsReplay` | packages/adapters/src/agent-runtime-emulator.ts:377-553 | names that are not empty, exact numbers, and call ids and steered ids of their own are enough for that |
| `SessionIds.EmptyStopReasonIsRefused` | packages/adapters/src/agent-runtime-emulator.ts:505-508 | in every session a stop whose reason is empty makes a stream that collides with nothing and that no client accepts: the wire parser refuses it |
| `SessionIds.UnreachedClosingIsHarmless` | packages/adapters/src/agent-runtime-emulator.ts:443-460 | though not needed: a steer of a message that only a step out of reach closes is accepted |
| `SessionIds.RepeatedSteerIsRefused` | packages/adapters/src/agent-runtime-emulator.ts:510-519 | in every session a message id steered twice makes the stream one the reducer refuses |
| `SessionIds.SteerOfAMessageIsRefused` | packages/adapters/src/agent-runtime-emulator.ts:510-519 | so does a steer of a message the script has streamed |
| `SessionIds.DeltaOfASteerIsRefused` | packages/adapters/src/agent-runtime-emulator.ts:380-388 | so does a delta of a message that was steered |
| `SessionIds.ClosingASteerIsRefused` | packages/adapters/src/agent-runtime-emulator.ts:443-450 | so does closing a message that was steered |
| `SessionIds.RepeatedRequestIsRefused` | packages/adapters/src/agent-runtime-emulator.ts:390-400 | so does a call id requested twice, even with no gate |
| `RunLease.EveryStateIsFenced` | packages/db/src/run-leases.ts:179-461 | over every interleaving of workers, heartbeats, watchdog and settlements, the row, attempts and executions agree: one fence, one open attempt, owner and deadline together |
| `RunLease.SettledAtMostOnce` | packages/db/src/run-leases.ts:363-461 | a run is settled at most once, and exactly when its row is terminal, by the fence the row ends with; as what it is settled is `EndIsRecorded` and `GivingUpIsRecorded` |
| `RunLease.EndIsRecorded` | apps/worker/src/run-execution.ts:103-130 | in every reached state the end of an execution's work, when its write lands, leaves the row completed if and only if the work succeeded, cancelled if and only if it was cancelled, failed if and only if it failed or broke, closes its own attempt likewise and no other, and gives the lease up; when the write does not land nothing is recorded (which ends settle the calls in flight is `EndingSettlesCallsWhen`) |
| `RunLease.EndingWrites` | apps/worker/src/run-execution.ts:212-235 | the one statement that does it: it lands exactly for the owner and fence of a row that is not terminal |
| `RunLease.GivingUpIsRecorded` | apps/worker/src/jobs/run-execute.ts:227-261 | a resume with nothing to resume, and a watchdog that gives up, record a failure under their own lease and keep it |
| `RunLease.ClaimTakesWhen` | packages/db/src/run-leases.ts:119-251 | a claim takes exactly a queued run nobody leases, at the fence it expects; the run is then running under the claimer's fence for one lease, with one attempt |
| `RunLease.ReclaimTakesWhen` | packages/db/src/run-leases.ts:139-251 | a reclaim takes exactly an active run whose lease has lapsed, at the fence it expects; the old attempt is abandoned, every call in flight fails, the status stays |
| `RunLease.AdoptTakesWhen` | packages/db/src/run-leases.ts:159-251 | a worker adopts exactly the lease the watchdog handed over and still holds |
| `RunLease.HeartbeatRenewsWhen` | packages/db/src/run-leases.ts:325-361 | a heartbeat renews exactly a live lease that is still the execution's, for one lease from now, and otherwise the execution knows the run is lost |
| `RunLease.CheckpointIsRecorded` | packages/db/src/run-leases.ts:363-461 | a checkpoint moves a live run between running and waiting as it says, and is refused otherwise |
| `RunLease.AbandonIsRecorded` | packages/db/src/run-leases.ts:470-486 | an execution that lost its lease closes no attempt but its own, and that only while it is open |
| `RunLease.BeginIsRecorded` | packages/db/src/tool-call-ledger.ts:58-110 | a begin that lands first puts the call in flight, and changes nothing if the call is there |
| `RunLease.OutcomeIsRecorded` | packages/db/src/tool-call-ledger.ts:112-164 | a call's outcome is recorded as it was, once, and only while the call is running |
| `RunLease.HoldTakesWhen` | packages/db/src/computer-leases.ts:80-179 | a command holds the computer exactly when its run's lease is live and no other holder's binding is, and then for one lease |
| `RunLease.TerminalRowIsFinal` | packages/db/src/run-leases.ts:488-504 | nothing changes a terminal row or its attempts |
| `RunLease.RowMovesLegally` | packages/db/src/run-leases.ts:179-251 | statuses move along the transition table and the fence by at most one, up |
| `RunLease.MovedFenceWritesNothing` | packages/db/src/run-leases.ts:363-461 | a worker whose fence moved changes neither the run row, nor an attempt, nor the computer lease; what it still reaches is the tool-call ledger, and there only its own calls |
| `RunLease.ForeignCallWhen` | packages/db/src/tool-call-ledger.ts:28-35 | in every reached state a call in flight is another execution's than the row's exactly when its begin landed after the row's fence had left the execution that sent it |
| `RunLease.LateBeginReadsAsInFlight` | packages/db/src/tool-call-ledger.ts:28-35 | a run that reaches it: a begin sent before a lapse lands after the successor's reclaim, and reads as in flight to it |
| `RunLease.LeavesFlightWhen` | packages/db/src/tool-call-ledger.ts:58-170 | a call leaves flight exactly by the outcome its own execution records, or by a reclaim or an ending that settles them all; on a terminal run only by the first |
| `RunLease.CallAfterTheEnd` | packages/db/src/run-leases.ts:363-461 | on a run whose ending settled the calls, a call in flight began after it |
| `RunLease.LiveLeaseIsExclusive` | packages/db/src/run-leases.ts:253-268 | while a lease stands, only its holder changes the row |
| `RunLease.LapsedLeaseIsRecovered` | packages/db/src/run-leases.ts:139-251 | from every reachable active state a lapsed lease can be reclaimed, which abandons the old attempt and settles every call in flight |
| `RunLease.OpenAttemptIsCurrent` | packages/db/src/run-leases.ts:179-251 | an attempt in progress is the current fence's, on an active run |
| `RunLease.LiveComputerIsFreedWhen` | packages/db/src/computer-leases.ts:181-194 | a live computer lease is given up exactly by its holder's release or by the delete of a watchdog pass that read the holder's binding as lapsed |
| `RunLease.ReleaseFollowsSettlement` | apps/worker/src/run-execution.ts:289-302 | the release comes after the run's settlement, by the settling fence |
| `RunLease.OldScanHitsARenewal` | apps/worker/src/jobs/lease-watchdog.ts:191-220 | such a delete of a live lease hits a binding its holder renewed after the pass read it |
| `RunLease.OldScanFreesALiveComputer` | apps/worker/src/jobs/lease-watchdog.ts:191-220 | a run that reaches it: a binding lapses, is scanned, is renewed under a live run lease, and is deleted with nothing settled |
| `RunLease.EveryExitRevokes` | apps/worker/src/run-execution.ts:132-196 | an execution that is over called the revoke of every proxy registered before its work ended and heard every answer, refusals included; a handle it missed was only registered after that |
| `RunLease.RefusalStopsNothing` | apps/worker/src/run-execution.ts:180-196 | a refused revoke holds up no other, and the execution goes on exactly when none is unanswered |
| `RunLease.TerminalRunIsUnleasedWhen` | packages/db/src/run-leases.ts:57-61 | a terminal run is still leased exactly when it was failed by a resume without a checkpoint or by the watchdog, whose updates do not release; the documentation says never |
| `RunLease.FailedRunStillLeased` | apps/worker/src/jobs/run-execute.ts:227-261 | a run that reaches this: claimed, lapsed, reclaimed by a second worker that has nothing to resume |
| `RunLease.EndingSettlesCallsWhen` | apps/worker/src/run-execution.ts:103-130 | a settlement leaves no call in flight exactly when its patch settles them or none was in flight |
| `RunLease.FailedWorkLeavesACallOpen` | apps/worker/src/run-execution.ts:121-127 | a run whose work broke with a call in flight leaves it in flight |
| `RateLimiter.CounterKeysDoNotCollide` | apps/api/src/limits.ts:335-345 | a bucket and key name one counter, as long as no bucket holds a NUL |
| `RateLimiter.RetryIsExact` | apps/api/src/limits.ts:335-359 | waiting the given seconds admits the caller and no shorter whole wait does |
| `RateLimiter.RequestLimiter.Sweep` | apps/api/src/limits.ts:326-332 | a sweep drops exactly the lapsed windows |
| `RateLimiter.RequestLimiter.Check` | apps/api/src/limits.ts:335-359 | a check, with the sweep every thousandth, is the specified step |
| `RateLimiter.SweepingNeverShows` | apps/api/src/limits.ts:320-361 | for a clock that does not run back, every answer is that of one window per key never swept |
| `RateLimiter.OtherKeysDoNotMatter` | apps/api/src/limits.ts:320-361 | a key's answers depend on its own checks only |
| `RateLimiter.AtMostTwoBudgetsLessOne` | apps/api/src/limits.ts:306-309 | any interval one window long admits at most twice the budget less one |
| `RateLimiter.TheBoundIsReached` | apps/api/src/limits.ts:306-309 | and some sequence of checks reaches that bound |
| `RateLimiter.WaitingIsEnough` | apps/api/src/limits.ts:335-359 | a refused caller that waits is admitted, whatever other keys do meanwhile |
| `RateLimiter.SweepDropsEveryStaleWindow` | apps/api/src/limits.ts:326-345 | after every thousandth check no lapsed window is kept |
| `RateLimiter.StreamSlots.Acquire` | apps/api/src/limits.ts:380-410 | a slot is granted exactly when fewer than `max` of the key's slots are unreleased |
| `RateLimiter.StreamSlots.Release` | apps/api/src/limits.ts:394-407 | releasing gives back one slot of its key once, however often it is called |
| `Transcript.IndexLive` | apps/web/src/console.ts:730-732 | the index holds the last live message of each key |
| `Transcript.RenderRows` | apps/web/src/console.ts:735-763 | each row is shown in order, with the stream's text where it has one |
| `Transcript.RenderMessages` | apps/web/src/console.ts:733-789 | rows first, then the messages only the stream has |
| `Transcript.RowIsShown` | apps/web/src/console.ts:735-763 | each fetched row and each send is shown in its place as itself: its own id, role, time, attachments and run, its own text unless the stream has a message for it and then that one's; a pending send as on its way, a failed one as not sent, any other without a mark |
| `Transcript.OnlyUnseenAreShown` | apps/web/src/console.ts:765-789 | the messages only the stream has are exactly its messages whose id and role no row has, each where it stands in the stream |
| `Transcript.StreamOnlyIsShown` | apps/web/src/console.ts:765-789 | such a message is shown after all rows, under its run, with its own id, role and text, and streaming exactly while it is not complete |
| `Transcript.ReducedWhen` | apps/web/src/console.ts:742-763 | a live message gives a row its text exactly when it is the last of the stream with the row's id and role |
| `Transcript.BlockIs` | apps/web/src/console.ts:839-893 | a run's block is its calls in order and then a card, which is there exactly when the run has ended and has something to report |
| `Transcript.SlotIs` | apps/web/src/console.ts:791-836 | a run stands after the first user message that names it, else before the first message that does, else at the end |
| `Transcript.Anchors` | apps/web/src/console.ts:791-806 | one pass finds each run's first message and first prompt |
| `Transcript.Place` | apps/web/src/console.ts:808-836 | each run that shows something is filed at its anchor, in run order |
| `Transcript.PushRuns` | apps/web/src/console.ts:839-854 | each filed run is pushed as its calls and then its card |
| `Transcript.PushStop` | apps/web/src/console.ts:856-866 | one message stands between the runs filed before and after it |
| `Transcript.MergeTranscript` | apps/web/src/console.ts:719-873 | the built array is the specified weave |
| `Transcript.MessagesInOrder` | apps/web/src/console.ts:719-873 | the message entries of the result are exactly the shown messages, in their order |
| `Transcript.EachRunOnce` | apps/web/src/console.ts:719-893 | the entries of each run are its calls in order and then its card, once |
| `Transcript.RightAfterItsPrompt` | apps/web/src/console.ts:719-873 | a run with a prompt stands as one block directly after it |
| `Transcript.RightBeforeItsFirst` | apps/web/src/console.ts:719-873 | a run without one stands as one block directly before its first message |
| `Transcript.RunsWithoutMessagesTrail` | apps/web/src/console.ts:719-873 | a run with no message stands at the end, and only such runs do |
| `Transcript.NothingLostOrRepeated` | apps/web/src/console.ts:719-873 | the entries are, counted with multiplicity, the messages and every run's block |
| `Transcript.StreamIsShown` | apps/web/src/console.ts:742-789 | every live message is on screen with its own text and streaming mark |
| `Transcript.AllMessagesDistinct` | apps/web/src/console.ts:565-568 | no id is rendered twice, and neither a fetched row nor a send is lost |
| `Transcript.ConsoleSends.NoteSent` | apps/web/src/console.ts:604-616 | a send is noted unless its id is known |
| `Transcript.ConsoleSends.NoteOptimistic` | apps/web/src/console.ts:618-632 | an optimistic send is noted and marked pending, a known one changes nothing |
| `Transcript.ConsoleSends.SettleSent` | apps/web/src/console.ts:634-652 | a settled send takes the optimistic row's place, or goes when the fetch already has it |
| `Transcript.ConsoleSends.FailSent` | apps/web/src/console.ts:654-664 | a failed send keeps its row and moves from pending to failed |
| `Transcript.NotedDistinct` | apps/web/src/console.ts:604-632 | noting keeps ids distinct |
| `Transcript.SettledDistinctWhen` | apps/web/src/console.ts:634-652 | settling keeps ids distinct exactly when the settled id is fetched, unchanged or new among the sends, or nothing waited for it |
| `Composer.ComposerController.SetText` | apps/web/src/composer.ts:352-364 | a changed text spends the nonce and is remembered as an edit in flight |
| `Composer.ComposerController.AddFiles` | apps/web/src/composer.ts:375-410 | files are staged one by one, the refused ones as invalid |
| `Composer.ComposerController.RemoveFile` | apps/web/src/composer.ts:412-423 | the file goes, its upload is aborted and the nonce spent |
| `Composer.ComposerController.RetryFile` | apps/web/src/composer.ts:425-439 | only a failed file is uploaded again |
| `Composer.ComposerController.Send` | apps/web/src/composer.ts:441-536 | a send goes out only from a sendable draft, with the kept or a new nonce, and clears the text |
| `Composer.ComposerController.OnUploaded` | apps/web/src/composer.ts:309-326 | a stored upload makes its file ready, if the file is still there |
| `Composer.ComposerController.OnUploadFailed` | apps/web/src/composer.ts:327-338 | a failed upload marks its file, if it is still there |
| `Composer.ComposerController.OnSent` | apps/web/src/composer.ts:511-523 | a landed send drops its own files and its nonce |
| `Composer.ComposerController.OnSendFailed` | apps/web/src/composer.ts:485-535 | a failed send restores the text unless it was edited; a precondition failure is sent once more, the same call under the same nonce |
| `Composer.EveryDraftIsSound` | apps/web/src/composer.ts:231-538 | under any order of edits, uploads and answers the draft stays sound |
| `Composer.SameNonceSameMessage` | apps/web/src/composer.ts:441-536 | two sends with the same nonce carry the same text and attachments |
| `Composer.FilesAreAccountedFor` | apps/web/src/composer.ts:181-339 | at most eight files are not invalid, a file is ready exactly when it has an attachment id and uploading exactly when an upload of it is under way |
| `Composer.SendCarriesEveryFile` | apps/web/src/composer.ts:441-492 | a send carries one id for every staged file, in order |
| `Composer.LandingTakesOnlyItsOwn` | apps/web/src/composer.ts:511-523 | a landed send removes exactly the files it carried and leaves later text and files |
| `Composer.FailureRestoresTheDraft` | apps/web/src/composer.ts:524-535 | a failed send restores an unedited text, keeps the files, and sends the same message again if the nonce stands |
| `Composer.WhatWasTypedIsSent` | apps/web/src/composer.ts:352-536 | the text typed last stands, whatever is staged, removed, uploaded or landed since, and is what the next send carries |
| `Composer.TypingChangesTheText` | apps/web/src/composer.ts:352-364 | after typing the text is the text typed and nothing else of the draft has moved but the nonce, which ends with a text that differs, and the note of an edit during a send |
| `Composer.EveryFileIsStaged` | apps/web/src/composer.ts:375-410 | every file offered gets a row of its own after those there are, in order: refused over 8,388,608 bytes, or past the eighth row, with that sentence, and uploading otherwise, under its own type or a guessed one; the nonce ends |
| `Composer.UploadIsAnswered` | apps/web/src/composer.ts:309-338 | an upload's answer is written to its own file alone: ready under the stored name, type and id, or failed with the sentence |
| `Composer.ProgressIsTheSentPart` | apps/web/src/composer.ts:301-306 | progress is the part of the whole that was sent, at most all of it, and nothing else moves |
| `Composer.RetryUploadsAFailedFile` | apps/web/src/composer.ts:425-439 | a retry puts a failed file back to uploading from nothing with one request more, and does nothing to any other |
| `Composer.RemovalTakesOneFile` | apps/web/src/composer.ts:412-423 | removing takes that file out, leaves the rest in order, ends the nonce and stops the upload exactly if it is under way |
| `Composer.SendsWhen` | apps/web/src/composer.ts:441-483 | a send goes out exactly when some character is not white space, none is under way and every file is ready; it takes the nonce there is or a new one, and only the text is emptied |
| `Composer.OneRetry` | apps/web/src/composer.ts:485-535 | a send whose run had ended goes out once more as it was; any other refusal, and the second of these, ends it with its sentence |
| `Text.BlankIsAllSpace` | apps/web/src/composer.ts:176-179 | a text is blank exactly when every character is white space |
| `Conversation.ReadAllPages` | apps/worker/src/run-conversation.ts:189-217 | the page loop equals its recursive specification |
| `Conversation.ReadsEverythingUnderTheLimit` | apps/worker/src/run-conversation.ts:189-217 | a pager that honours its cursor gives every row once, in order, exactly when there are fewer than 10,000 of them, and a failure otherwise |
| `Conversation.BuildRunConversation` | apps/worker/src/run-conversation.ts:70-187 | the loops and maps build the specified conversation or fail for the specified reason; in which order the listing's runs come out is `OldestRunFirst` |
| `Conversation.OldestRunFirst` | apps/worker/src/run-conversation.ts:70-187 | over the listing as it is read, newest run first: the history is the turns of the last listed run, then of the one before it, down to the first, each run whole but for the prompt, which is the first user turn of the run that is answered |
| `Conversation.RunStandsBetween` | apps/worker/src/run-conversation.ts:75-75 | so the turns of a listed run stand after those of every run listed later and before those of every run listed earlier |
| `Conversation.RowsKeepTheirOrder` | apps/worker/src/run-conversation.ts:119-149 | each user row of the run that is neither blank nor steered is a turn with its own id and text, where the row stands among the rows |
| `Conversation.MessagesKeepTheirOrder` | apps/worker/src/run-conversation.ts:151-162 | each stream message of the run that is neither blank nor already a row is a turn in its own role, where it stands in the stream |
| `Conversation.StuckPagerIsRefused` | apps/worker/src/run-conversation.ts:189-217 | a full page that does not move the cursor on is refused |
| `Conversation.CollectRows` | apps/worker/src/run-conversation.ts:119-131 | rows are grouped by run, steered ones left out |
| `Conversation.CollectTurns` | apps/worker/src/run-conversation.ts:133-162 | each run's turns are its user rows and then its stream messages not seen before |
| `Conversation.CollectHistory` | apps/worker/src/run-conversation.ts:174-184 | history is every run's turns in order, less the prompt in the current run |
| `Conversation.FindSteered` | apps/worker/src/run-conversation.ts:107-117 | exactly the messages the stream steered |
| `Conversation.HistoryIsEverythingElse` | apps/worker/src/run-conversation.ts:133-187 | history and prompt together are every turn of every run, oldest run first, the prompt cut out of its place, exactly when the prompt's id is its own in its run; against the listing, newest first, it is `OldestRunFirst` |
| `Conversation.RunIsWholeWhen` | apps/worker/src/run-conversation.ts:135-162 | a run's turns are whole exactly when no id its stream would add was seen before |
| `Conversation.SteeredRowsStandInTheStream` | apps/worker/src/run-conversation.ts:107-131 | a steered row appears at its event's place only |
| `Conversation.CollidingAnswerIsDropped` | apps/worker/src/run-conversation.ts:151-159 | two runs in which an answer is dropped for sharing an earlier row's id |
| `Computers.SnapshotKeyNames` | packages/adapters/src/computer-snapshot-store.ts:70-72 | a key names one scope and one snapshot id |
| `Computers.DerivedKeysAreWellKeyed` | packages/adapters/src/computer-snapshot-store.ts:56-72 | no two snapshot ids share a key, for any scope of the written length |
| `Computers.ComputerEmulator.IsStored` | packages/adapters/src/computer-emulator.ts:394-411 | the guard accepts exactly a handle whose id, key, size and checksum are one snapshot's own |
| `Computers.Instance.Clone` | packages/adapters/src/computer-emulator.ts:703-714 | a clone is equal and shares neither files nor browser with its source |
| `Computers.ComputerEmulator.CreateInstance` | packages/adapters/src/computer-emulator.ts:547-557 | a new instance is empty, running and at the next generation |
| `Computers.ComputerEmulator.Ensure` | packages/adapters/src/computer-emulator.ts:343-356 | one computer is brought up, everything else untouched |
| `Computers.ComputerEmulator.Stop` | packages/adapters/src/computer-emulator.ts:317-329 | one computer stops and keeps its home |
| `Computers.ComputerEmulator.Snapshot` | packages/adapters/src/computer-emulator.ts:377-392 | the home is stored under a key of its own; only a running computer has one taken |
| `Computers.ComputerEmulator.Restore` | packages/adapters/src/computer-emulator.ts:394-422 | a stored home comes back in a machine of a new generation, or nothing changes |
| `Computers.ComputerEmulator.Destroy` | packages/adapters/src/computer-emulator.ts:424-428 | one computer goes, its snapshots stay |
| `Computers.ComputerEmulator.Exec` | packages/adapters/src/computer-emulator.ts:362-375 | a command changes one home and no stored snapshot |
| `Computers.ComputerEmulator.Input` | packages/adapters/src/computer-emulator.ts:450-459 | typing changes one browser and no stored snapshot |
| `Computers.RunKeeps` | packages/adapters/src/computer-emulator.ts:377-428 | over any run no stored snapshot changes or is lost, and every handle still names its own |
| `Computers.GenerationsAreDistinct` | packages/adapters/src/computer-emulator.ts:343-356 | machines always have distinct generations below the next one |
| `Computers.RestartIsNew` | packages/adapters/src/computer-emulator.ts:343-356 | a machine that comes up again has a generation above every one it had |
| `Computers.OthersAreUntouched` | packages/adapters/src/computer-emulator.ts:317-428 | no operation on one computer changes another |
| `Computers.RestoreBringsBack` | packages/adapters/src/computer-emulator.ts:377-422 | restoring a snapshot brings back exactly the files and browser at capture, whatever ran in between |
| `Computers.RestoreIsExact` | packages/adapters/src/computer-emulator.ts:394-411 | a restore succeeds exactly when id, key, size and checksum name one stored snapshot, and a refused one changes nothing |
| `Computers.EnsureIsIdempotent` | packages/adapters/src/computer-emulator.ts:343-356 | ensuring twice is ensuring once, and keeps the home |
| `Computers.OwnMachineAfter` | packages/adapters/src/computer-emulator.ts:317-459 | what each operation makes of its machine: a stop parks it with its home and generation, a destroy leaves none, ensuring brings it up as a new instance unless it runs, with the home it has or an empty one, a command or input changes the home of a running one alone |
| `Computers.OwnRecordsAfter` | packages/adapters/src/computer-emulator.ts:317-428 | and of its bot's name, the next generation and the stored snapshots, of which a snapshot files exactly one, of the home as it is |
| `Computers.OnlyARunningMachineWorks` | packages/adapters/src/computer-emulator.ts:362-459 | commands, input and snapshots fail as gone and change nothing unless the machine runs; a timeout that is not positive is refused first |
| `Lifecycle.OnlyIdleMachinesAreStopped` | apps/supervisor/src/computer-lifecycle.ts:240-278 | a stop is issued only with an idle timeout set, for a machine listed running, not busy, and idle for the timeout since its last touch or first sighting |
| `Lifecycle.TouchedIsTheLastWork` | apps/supervisor/src/computer-lifecycle.ts:142-190 | the touch that guarantee speaks of is the clock of the last work on the machine |
| `Lifecycle.IdleMachineIsParked` | apps/supervisor/src/computer-lifecycle.ts:240-278 | and an idle machine is parked: one the sweep sees running and unmarked, and which is then left alone whatever happens elsewhere, is stopped by any look a timeout later |
| `Lifecycle.StopIsIssuedWhen` | apps/supervisor/src/computer-lifecycle.ts:250-270 | one look issues a stop exactly for a machine listed running, unmarked, and worked or first sighted at least the timeout ago; without a timeout there is no look |
| `Lifecycle.ClockMovesWhen` | apps/supervisor/src/computer-lifecycle.ts:142-278 | work sets a machine's clock, a first sighting sets it, a destroy or a stop that succeeded clears it, and nothing else moves it |
| `Lifecycle.StopComesBackOnce` | apps/supervisor/src/computer-lifecycle.ts:268-274 | a stop comes back once, and changes no other stop, no command and no mark |
| `Lifecycle.CutOffBecause` | apps/supervisor/src/computer-lifecycle.ts:146-154 | in every run, a command a stop takes effect under either began while the stop was pending, or had overlapped another whose end cleared the mark before the stop was issued, and never both |
| `Lifecycle.MarkedWhen` | apps/supervisor/src/computer-lifecycle.ts:146-154 | in every reached state a machine is marked busy exactly while some command is in flight there since whose beginning no other has ended |
| `Lifecycle.CanBeCutOffWhen` | apps/supervisor/src/computer-lifecycle.ts:240-278 | in every reached state some continuation stops a machine, with no command beginning or ending, if and only if a stop of it is pending, or an idle timeout is set and it is not marked |
| `Lifecycle.SpacedCommandsAreSafe` | apps/supervisor/src/computer-lifecycle.ts:146-190 | in a run where no command begins over another or over a pending stop of its machine, each is marked while in flight and no stop is pending there |
| `Lifecycle.CommandUnderAPendingStop` | apps/supervisor/src/computer-lifecycle.ts:240-278 | the only command there ever was, begun while the stop of its idle machine is pending, is stopped under |
| `Lifecycle.EndKeepsTheMarkWhen` | apps/supervisor/src/computer-lifecycle.ts:146-154 | a command's end leaves the others on its machine marked exactly when there are none |
| `Lifecycle.OverlapCutsACommandOff` | apps/supervisor/src/computer-lifecycle.ts:146-154 | two overlapping commands after which the sweep's stop takes effect under the second |
| `Lifecycle.ComputerLifecycle.StopIdle` | apps/supervisor/src/computer-lifecycle.ts:240-278 | the sweep stops exactly the due machines in listing order and reports each stop as done or failed |
| `Lifecycle.SweptEach` | apps/supervisor/src/computer-lifecycle.ts:248-275 | the sweep forgets the machines it stopped, sights new ones now and leaves every other clock alone |
| `Lifecycle.ComputerLifecycle.ParkIfIdle` | apps/supervisor/src/computer-lifecycle.ts:252-275 | one machine's turn of the sweep, with what it does to the clock |
| `Lifecycle.ComputerLifecycle.Reconcile` | apps/supervisor/src/computer-lifecycle.ts:212-238 | every machine not listed stopped is ensured, every adopted one and no other is touched, each is reported |
| `Lifecycle.ReconcilePartitions` | apps/supervisor/src/computer-lifecycle.ts:212-238 | every listed machine is adopted or failed, exactly once |
| `Lifecycle.StoppedStaysStopped` | apps/supervisor/src/computer-lifecycle.ts:212-238 | no stopped machine is started |
| `Lifecycle.DueIsStops` | apps/supervisor/src/computer-lifecycle.ts:240-278 | the sweep's list is the single-machine rule |
| `Lifecycle.SweptInOrder` | apps/supervisor/src/computer-lifecycle.ts:250-275 | the sweep takes the machines in listing order: it counts those running and unmarked, and stops those of them with a clock at least the timeout old |
| `Lifecycle.ReportedInOrder` | apps/supervisor/src/computer-lifecycle.ts:268-274 | each stop is reported as done, or as failed with its detail, in the order called |
| `Lifecycle.BroughtUpWhen` | apps/supervisor/src/computer-lifecycle.ts:217-226 | a machine is ensured exactly when it is listed not stopped and its network plan is accepted |
| `Lifecycle.ReconciledInOrder` | apps/supervisor/src/computer-lifecycle.ts:217-235 | in listing order, a machine whose plan is refused fails with that refusal, a stopped one is adopted as it is, any other is ensured and adopted or failed with what that answers |
| `BackupRun.KeysAreApart` | packages/core/src/backup-policy.ts:60-67 | the dump and every home have keys of their own |
| `BackupRun.SelectExpired` | packages/core/src/backup-policy.ts:214-242 | the loop selects what its recursion does, or refuses an unreadable age or window; over the listing: exactly those objects whose key is unprotected and whose date lies before the window of 86,400,000 ms a day, in listing order |
| `BackupRun.ExpiredWhen` | packages/core/src/backup-policy.ts:214-242 | a key is selected if and only if some listed object has it, is unprotected and was modified before the window; without an unreadable age or window it is never refused |
| `BackupRun.SelectsInOrder` | packages/core/src/backup-policy.ts:232-241 | each such object's key stands where its object does in the listing |
| `BackupRun.BackupHost.RestoreBackupInto` | apps/backup/src/drill.ts:86-140 | a failed restore drops its own database and never one that was there |
| `BackupRun.BackupHost.PerformRestoreDrill` | apps/backup/src/drill.ts:151-192 | a drill passes exactly when it creates a free name and the dump restores with tables and the run's own canary; with a free name and a drop that works the databases are as before |
| `BackupRun.BackupHost.DrillIfDue` | apps/backup/src/run.ts:135-195 | what the drill writes to the row, what it throws, and the databases it leaves, whichever ledger writes land, fail, or land unheard; a success landed unheard cannot be written over as a failure |
| `BackupRun.BackupHost.CopyHomes` | apps/backup/src/run.ts:70-101 | every home up to the first that fails is copied under its own key, that one too if the storage took it before it failed, nothing else changes, and the counts are true |
| `BackupRun.BackupHost.Prune` | apps/backup/src/run.ts:103-133 | the expired objects are removed in order, up to the removal that fails, and that one if it landed; that they are old and unprotected is `PrunedAreOld` |
| `BackupRun.PrunedAreOld` | apps/backup/src/run.ts:103-133 | what a prune removes is listed, unprotected and older than the window; if every removal works every such object goes and nothing else does |
| `BackupRun.FailedRemoval` | apps/backup/src/run.ts:121-131 | a removal that fails leaves every later object, and its own unless it landed |
| `BackupRun.BackupHost.TakeBackup` | apps/backup/src/run.ts:211-219 | the steps succeed or fail with the first failing step's code and leave the destination as specified, however far they got; a dump whose client failed after its bytes were stored stays |
| `BackupRun.BackupHost.TryBackup` | apps/backup/src/run.ts:211-240 | the try block: the row, settlement and drill it leaves, and what it throws |
| `BackupRun.BackupHost.PerformBackupRun` | apps/backup/src/run.ts:202-252 | from any ledger, whichever writes land, fail, or land unheard: one row more if its insert landed, as specified, its status the last settlement written; one settlement when every ledger write succeeds; a drill recorded succeeded exactly when it was due, recordable and went well; the destination, the databases, and whether it throws |
| `BackupRun.SucceededIsStored` | apps/backup/src/run.ts:202-252 | a run recorded succeeded has its dump and a copy of its own under every home's key in the destination after pruning, with true counts |
| `BackupRun.DumpStaysWhen` | apps/backup/src/postgres.ts:203-220 | a run's dump key is in the destination afterwards exactly when the canary was written and the archive stored bytes for it, failed runs and broken dumps included |
| `BackupRun.BrokenDumpIsStored` | apps/backup/src/postgres.ts:203-220 | a failed run whose truncated dump stays |
| `BackupRun.NewestSuccessKeptWhen` | packages/core/src/backup-policy.ts:204-213 | over any sequence of nights the newest backup recorded succeeded keeps its dump, unchanged, exactly when no later run that was not itself recorded succeeded has removed it |
| `BackupRun.EarlierDump` | apps/backup/src/run.ts:103-133 | a night removes an earlier run's dump or leaves it unchanged, never anything else |
| `BackupRun.PruneBeforeSettlementLosesTheNewest` | apps/backup/src/run.ts:211-229 | two nights after which the newest recorded success has no dump: the second pruned it and could not settle |
| `BackupRun.OthersKept` | apps/backup/src/run.ts:70-133 | whatever fails, a run changes only its own keys and the expired objects it prunes |
| `BackupRun.YoungObjectsStay` | apps/backup/src/run.ts:70-133 | whatever fails, no night removes an object that is not listed with a date before the window |
| `BackupRun.RetentionExactly` | apps/backup/src/run.ts:103-133 | a night whose steps all work leaves exactly its own objects and those others that are not listed with a date before the window |
| `BackupRun.DrillTells` | apps/backup/src/run.ts:135-195 | a drill's columns say what happened: succeeded with the canary read back, failed with a code, still running when neither outcome landed, absent when its opening did not |
| `BackupRun.UnheardDrillThrows` | apps/backup/src/run.ts:168-194 | a drill whose success went unheard throws the ledger's refusal to write a failure over it, or what that write throws itself |
| `BackupRun.RestOfTheSite` | apps/backup/src/run.ts:202-252 | only a drill changes the server's databases, and a run whose insert did not answer leaves nothing but its open row, if that |
| `BackupRun.SettlesTwiceWhen` | apps/backup/src/run.ts:202-252 | a run settles twice, succeeded then failed, exactly when every step passed and both settlements landed, and either the success lost its reply, or the drill met an interval that is no number of days, could not be opened, or ended in a throw: a good one whose record lost its reply or was refused together with the failure in its place, a bad one whose failure was not answered for |
| `BackupRun.LostReplyReadsAsFailed` | apps/backup/src/run.ts:221-250 | a good backup, no drill due, whose row ends as failed because the answer to its success was lost |
| `BackupRun.GoodBackupReadsAsFailed` | apps/backup/src/run.ts:202-252 | a good backup whose row ends as failed that way |
| `Cursors.EncodeRoundTrip` | apps/api/src/cursors.ts:126-128 | unpadded base64url decodes back (section 5 of RFC 4648) |
| `Cursors.EncodeInjective` | apps/api/src/cursors.ts:126-128 | two byte strings with the same text are the same |
| `Cursors.EncodeLength` | apps/api/src/cursors.ts:126-128 | its exact length, and no dot in it |
| `Cursors.MintedHasTwoParts` | apps/api/src/cursors.ts:61-80 | a minted cursor splits into exactly its payload and signature, with its exact length |
| `Cursors.MintedVerifies` | apps/api/src/cursors.ts:61-108 | a minted cursor gives its position back for its own space, thread and user and is refused for any other, exactly up to 351 payload bytes |
| `Cursors.UnsafePositionIsRefused` | apps/api/src/cursors.ts:137-171 | a position that is no safe non-negative integer (negative, too large, a fraction, NaN) is minted but never accepted |
| `Cursors.AcceptedWasMinted` | apps/api/src/cursors.ts:76-108 | with no forged signature, an accepted cursor was minted for that binding and position |
| `Cursors.SplitTwo` | apps/api/src/cursors.ts:76-90 | two dotless parts joined by a dot split into those two |
| `Secrets.ReadyRowsAreTheSelectedBots` | apps/web/src/secrets.ts:133-217 | whatever the order of late answers, a ready screen shows no row or only the selected bot's |
| `Secrets.EveryScreenIsSound` | apps/web/src/secrets.ts:121-306 | no two reads share a number, and a newest reload is always loading its own selection |
| `Secrets.OnlyTheNewestReadLands` | apps/web/src/secrets.ts:145-168 | an answer lands exactly when no later read began |
| `Secrets.WriteUndoesSelection` | apps/web/src/secrets.ts:245-274 | a store that settles while another bot is being read takes the screen back: the selection's answer is dropped |
| `Secrets.ReloadKeepsAListedSelection` | apps/web/src/secrets.ts:192-200 | the newest reload keeps a selection that is still listed, takes the first bot for one that is not, and has none when no bot is listed |
| `Secrets.PendingIs` | apps/web/src/secrets.ts:145-304 | what the screen waits for: the bot last asked for on its own or the write begun since, until the newest answer or a write's end |
| `Secrets.ReadsAreNumbered` | apps/web/src/secrets.ts:145-304 | a load, a selection and a write that succeeded each ask once under the next number; an answer ends its read and nothing else takes a number |
| `Secrets.WritesAreUnderWay` | apps/web/src/secrets.ts:245-304 | a write is under way from its beginning to its end, for the bot selected when it began |
| `Secrets.SecretsController.ReadSecrets` | apps/web/src/secrets.ts:145-152 | a read takes the next number and shows as pending |
| `Secrets.SecretsController.SelectBot` | apps/web/src/secrets.ts:233-243 | selecting another bot clears the rows before its read |
| `Secrets.SecretsController.OnSecrets` | apps/web/src/secrets.ts:153-168 | a read's answer replaces the rows, or is dropped when overtaken |
| `Secrets.SecretsController.OnBots` | apps/web/src/secrets.ts:174-200 | a reload keeps a selection that is still listed, else takes the first bot |
| `Secrets.SecretsController.OnReload` | apps/web/src/secrets.ts:202-216 | a reload's rows land unless overtaken |
| `Secrets.SecretsController.BeginWrite` | apps/web/src/secrets.ts:245-252 | a write is for the bot selected when it begins, and none begins without one |
| `Secrets.SecretsController.EndWrite` | apps/web/src/secrets.ts:254-273 | a write that succeeded reads its own bot again |
| `Secrets.SecretsController.Load` | apps/web/src/secrets.ts:170-172 | a reload takes the next number and shows as loading |
| `Webhooks.SecretNamesAreDistinct` | apps/api/src/webhooks.ts:55-70 | two canonical source names never share a signing secret |
| `Webhooks.SecretNameIsPlain` | apps/api/src/webhooks.ts:62-70 | and such a name has only capitals, digits and underscores |
| `Webhooks.SourceIs` | apps/api/src/webhooks.ts:49-60 | a source name is a letter or digit, or two of them around at most 62 letters, digits and dashes |
| `Webhooks.DispatchedOnceUnlessThrown` | apps/api/src/webhooks.ts:187-222 | inside one row's lifetime a delivery is dispatched again only after its handler threw, as long as no handler outlives its row |
| `Webhooks.CanRepeatWhen` | apps/api/src/webhooks.ts:187-222 | in every reached state, a dispatch that has not thrown can be repeated within its row's lifetime exactly when its row is gone or another handler of the delivery is still running |
| `Webhooks.ThrownIsDispatchedAgain` | apps/api/src/webhooks.ts:203-219 | a delivery whose handler threw is dispatched again when it comes back, if its release landed |
| `Webhooks.ReleaseIsSafeWhen` | packages/db/src/ingress.ts:124-133 | a release leaves every unfinished dispatch guarded exactly when the row it deletes is the thrower's own, gone, lapsed, or its handler threw already |
| `Webhooks.LateThrowReleasesAnothersRow` | packages/db/src/ingress.ts:124-133 | a handler that outlives its row throws late, and an accepted delivery is dispatched a second time |

## Left out

- Cryptography: AES-256-GCM, HKDF, SHA-256, HMAC and scrypt are values with the facts used as hypotheses; the environment's keyring parsing and the key envelope are not modelled.
- Asynchronous iterators: closing an abandoned one (`iterator.return`), and back-pressure.
- Tar.ReadTar: decoding bytes that are not UTF-8.
- Session.EveryStreamIsWellShaped: rests on `emit` and `finish` being one step each; a fiber switch between taking a number and offering the event is not modelled.
- Session, SessionReplay, RunLease and Webhooks are state machines over values rather than classes, because their steps belong to several fibers, processes or database statements; aliasing of objects inside one process is not captured.
- RunLease.SettledAtMostOnce: one run, one computer; checkpoint contents, liveness stamps, error texts and notifications are other columns and calls. A tool call's handler and its awaited heartbeat are not modelled; its rows in the ledger are.
- EventReducer.SameEventsSameSnapshot: wire validation is a verdict per value there; `Parses` is that verdict for an event with all its fields, with the timestamp check as a parameter. `resultArtifact` of a completed call is not carried.
- Transcript.MergeTranscript: what a settled run's card says (`runOutcome`) is a parameter; fetching, polling liveness and the event source are not part of this model.
- Composer: drag state, subscriptions, the sentences for failures and the transport are parameters or absent; guessing a content type from a name is a parameter.
- Conversation.ReadsEverythingUnderTheLimit: a page read is a function of its cursor, so rows written during the reading are not modelled.
- Computers.ComputerEmulator.Exec: a shell command is one function on a home, so two commands running on one computer at a time do not interleave; the list of executed commands is absent.
- Computers.ComputerEmulator.Input: typed text only; pointer input, frames and the recorded input list are absent.
- Computers: file contents are values, and `list` order, scripted pages, browser actions and credential proxies are absent.
- Lifecycle.ComputerLifecycle.StopIdle: one clock reading, a listing without repeated ids, and no request between the awaits of one pass; the tracker's actions are where requests, sweeps and stops interleave.
- Lifecycle.ComputerLifecycle.ParkIfIdle: the stop answers at once and the clock is read once, for the same reason.
- Lifecycle.ComputerLifecycle.Reconcile: one clock reading and no request between the awaits.
- Lifecycle.CutOffBecause: a stop is taken to take effect when it comes back; an operator's own stop, reset or destroy of a machine in use is not the sweep's.
- RateLimiter: clock readings are whole numbers; `withReleasedBody` (a stream slot given back when its response body ends), route matching, body caps and the HTTP middleware are not part of this model.
- BackupRun.BackupHost.PerformBackupRun: alerts, the nightly schedule and status reading are absent; the age of a listed object is the listing's own answer.
- Cursors.MintedVerifies: the JSON printer and parser and the lenient decoder are parameters, and a string's length counts characters, which for base64url is what the source counts.
- Secrets: notices, refusal sentences and the values stored; that a list answer holds the asked bot's rows is what the model takes from the transport.
- Webhooks.DispatchedOnceUnlessThrown: signature checks and the other refusals before the ledger are one branch each; the ledger's delete and insert are one step; clock readings do not run back. That no handler outlives its row is enough and not needed: `CanRepeatWhen` has the exact condition.
- `apps/worker/src/run-dispatch.ts` (a timer that starts one dispatch pass after another), `apps/web/src/roster.ts` (the bot list grouped by section), `apps/desktop/src/proxy.ts` (the desktop shell's cookie and request rewriting), and the web client's other controllers, which guard late answers by a counter as `Secrets` does, are not part of this model.
- All I/O, HTTP, DOM and configuration.
