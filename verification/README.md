# AuraNode agent: verified models

Dafny models of the parts of the AuraNode agent whose correctness depends on how several
pieces work together, with proofs of what they keep in every run. `dafny verify dfyconfig.toml`
checks the whole project.

**Tunnel relay** (`Tunnel*.dfy`, from `internal/tunnel/tunnel.go`). Two agents carry one TCP
connection over a message channel, with credit-based flow control and a half-close in each
direction. `TunnelStream` describes one end as the atomic sections of its three goroutines (the
reader, the writer, the dispatcher); `TunnelNetwork` joins two ends with two FIFO queues and lets
all sections interleave; `TunnelManager` holds the same code as classes that update their fields,
the methods that run sections proved against them. A stream is aborted only by those who abort it in
the code: `StopListener` and `Shutdown` after they have taken it out of the map, the dispatcher in the
middle of a reset, the writer after a failed write, and markDone when both directions have ended.
Over all runs:

- what a connection has received is always a prefix of what the opposite reader took in, aborts,
  write errors and resets included (`TunnelDelivery`);
- an orderly half-close means the direction is complete (`TunnelHalfClose`);
- credit, reserve and bytes on the way always make up one window, less exactly what failed reads,
  failed writes, refused chunks and late grants took out of it (`TunnelCredit`);
- runs without failures end after a linear number of steps, never deadlock, and deliver both
  inputs in full (`TunnelProgress`);
- the exact chunk size above which the inbox cannot overflow (`TunnelOverflow`), and the exact
  fates of the two flow-control flags under which every run completes (`TunnelNegotiation`).

**Migration** (`Migration*.dfy`, `Paths.dfy`, from `internal/migration/migration.go`). A source
sends a directory to a destination in chunks, under a sliding window, with a verdict for each file,
up to three attempts, and a manifest log for resumption. `MigrationModel` has the handlers and the
source's loop, `MigrationSession` one session with its queues and bounded ack channels,
`MigrationInvariant` and `MigrationSteps` its invariant, `MigrationResults` and `MigrationFlow` the
results, `MigrationLimits` the exact parameters at which flow control stops working, with the runs
that show it built in `MigrationReads`, `MigrationRetry` the ways a session gets stuck,
`MigrationAttempts` the attempts as counted from the messages, `MigrationRemoval` the clean-up after a
refusal, `MigrationCompletion` the runs that carry a job out, `MigrationResume` crashes and restarts,
`MigrationHistory` what whole histories do to the manifest log, `MigrationManager` the objects updated
in place, `Paths` the mapping of file names.

**Rule engine** (`RuleEngine.dfy`, `RuleHistory.dfy`, from `internal/rules/engine.go`). The state
machine of a rule, and the proof that it fires exactly when a condition on its whole history holds.

**Offline buffer** (`OfflineBuffer.dfy`, from `internal/buffer/buffer.go` and
`internal/agent/agent.go`) and **dump names** (`DumpNames.dfy`, from `internal/database/backup.go`),
with `Text.dfy` for the string functions they and `Paths.dfy` share.

## Assumptions

- Messages between two agents arrive in the order of emission and are handled one at a time:
  writes are serialized (`internal/connection/client.go:168-177`) and one goroutine dispatches
  (`internal/connection/client.go:215-225`).
- A `Read` reports `n > 0` bytes, or an error, or both; it may return fewer bytes than there are.
- Removing a refused file succeeds: the code ignores an error of `os.Remove`.
- SHA-256 has no collisions. CRC32 is abstract: a damaged chunk keeps its length and may or may not
  be noticed.
- The bucket behind the buffer is an ordered map whose `KeyN` is exact inside the transaction, and
  its 64-bit sequence does not wrap; the eviction loop ends for that reason.
- Evaluations of the rules are serialized and their clock does not run backwards.

## Where the code and its comments differ

- `internal/tunnel/tunnel.go:329-330` says that a lost flow-control flag leaves both ends without
  gating. That is so when `tunnel_open` loses it; when only the acknowledgement does, the
  destination stays gated and stops for good after one window (`TunnelNegotiation.LostAckFlagHangs`).
- `internal/tunnel/tunnel.go:36-38` says that the inbox does not fill up under flow control. Chunks
  of fewer than 128 bytes can fill it (`TunnelOverflow.InboxBoundIsExact`).
- `internal/migration/migration.go:361-362` announces three failed verifications. After a damaged
  chunk of a file that is at least as long as the window the source only times out
  (`MigrationRetry.DamageCanPreventRetry`). The session always goes on, by another attempt or by
  giving up after the third, whenever all files to be sent are shorter than the window, and only then
  (`MigrationRetry.RetryLimit` together with `MigrationAttempts.GivenUpAfterThree` and
  `MigrationAttempts.RefusedIsTriedAgain`).
- `internal/migration/migration.go:523-524` calls the manifest log crash-resistant. Its entries are
  true after any crash (`MigrationResume.ManifestNeverLies`), but an entry that is appended to a torn
  line is lost with it, and its file is sent again (`MigrationHistory.TornLineLosesNextEntry`);
  `MigrationHistory.RecordedIsRemembered` gives the exact condition.
- `internal/migration/migration.go:544` accepts the destination `/`, under which `safeJoin` refuses
  every file (`Paths.RootDestinationRefusesFiles`).
- `internal/rules/engine.go:100-106` keeps only the day of the year: a rule that last counted on
  the same day of an earlier year starts that day with the old count
  (`RuleHistory.YearWrapSuppresses`; `RuleHistory.DailyLimitByDate` gives the exact condition).

## Model

| member | source | states |
|---|---|---|
| TunnelDelivery.WrittenIsPrefixOfTaken | internal/tunnel/tunnel.go:364-383 | in every run of two ends, with aborts, write errors, resets and drops at any point where the code allows them, each connection has received a prefix of what the opposite reader took in |
| TunnelDelivery.StepKeepsInv | internal/tunnel/tunnel.go:432-506 | every step keeps the delivery invariant: while an end accepts data, accepted plus travelling bytes are exactly what was taken in; afterwards the accepted bytes are a prefix |
| TunnelDelivery.SectionKeepsAbort | internal/tunnel/tunnel.go:119-130 | whoever aborts a stream, until its connection is closed the stream is out of the map, or its dispatcher is in a reset, or its writer has gone |
| TunnelHalfClose.HalfCloseMeansComplete | internal/tunnel/tunnel.go:436-450 | in every run, a write side closed in order, whose sender has not reset the stream, has received every byte the sender took in, and the sender has sent its tunnel_close |
| TunnelHalfClose.ReceiverKeepsEof | internal/tunnel/tunnel.go:402-409 | handling any message keeps tunnel_close the last message of its direction and the direction complete once the inbox is closed |
| TunnelOverflow.ResetTruncates | internal/tunnel/tunnel.go:374-381 | a run in which the close of a reset overtakes the reader and the peer half-closes with a byte missing: the hypothesis on resets is needed |
| TunnelCredit.CreditConserved | internal/tunnel/tunnel.go:82-115 | in every run with flow control on both ends, for each direction, credit, reserve, bytes in transit, in the inbox and in hand, grants due and grants in transit, plus what the steps of the run lost, equal 262144; they equal 262144 by themselves if and only if no Read failed with a reserve, no write failed, no chunk was refused and no grant came to an unregistered stream |
| TunnelCredit.FailedWriteLeavesLess | internal/tunnel/tunnel.go:451-455 | a run after which a reader still asks for credit of an open, registered stream although a byte of its window is gone |
| TunnelCredit.WindowNeverExceeded | internal/tunnel/tunnel.go:84-115 | so in every such run credit is never negative and no part of the window exceeds 262144 |
| TunnelCredit.ReaderSpends | internal/tunnel/tunnel.go:472-505 | a reader section conserves the window of its direction, less the reserve that a failed Read keeps |
| TunnelCredit.WriterSpends | internal/tunnel/tunnel.go:436-465 | a writer section conserves it, less the chunk of a failed write |
| TunnelCredit.DeliverySpends | internal/tunnel/tunnel.go:364-383 | a delivery conserves the window of the direction it belongs to, less a chunk that is not queued |
| TunnelCredit.GrantArrives | internal/tunnel/tunnel.go:387-395 | a grant conserves it, unless the stream is no longer registered |
| TunnelProgress.OrderlyRunsEnd | internal/tunnel/tunnel.go:417-506 | a run without failures takes at most 20 steps for each input byte and 24 more, whatever the scheduling |
| TunnelProgress.StepDecreases | internal/tunnel/tunnel.go:417-506 | every such step decreases one measure over unread bytes, messages, inbox chunks and goroutine phases |
| TunnelProgress.OrderlyRunsComplete | internal/tunnel/tunnel.go:413-430 | with flow control agreed, a failure-free run that cannot go on has both directions closed, both streams unregistered, and each side's whole input written at the other |
| TunnelProgress.StuckIsFinished | internal/tunnel/tunnel.go:432-506 | deadlock freedom: an orderly state with agreed flow control in which nothing can move has finished |
| TunnelProgress.StuckShape | internal/tunnel/tunnel.go:472-480 | without agreement, the only other way to stop is a reader out of credit with everything else idle |
| TunnelProgress.ReadersNeverStarve | internal/tunnel/tunnel.go:397-409 | in every failure-free run with flow control, a reader that asks for credit has both streams registered and its whole window accounted for; when it has none, all 262144 bytes are in data messages, inbox chunks, the chunk in hand and grants, and one of them can move |
| TunnelProgress.StepKeepsOrderly | internal/tunnel/tunnel.go:402-430 | every failure-free step keeps: streams stay registered until both directions end, closes are not lost, nothing is half aborted |
| TunnelProgress.StepKeepsAgreed | internal/tunnel/tunnel.go:456-495 | every failure-free step keeps the full window of a live reader |
| TunnelProgress.RunToTheEnd | internal/tunnel/tunnel.go:432-506 | every orderly state has an orderly run to a state where nothing is left to do |
| TunnelNegotiation.LostAckFlagHangs | internal/tunnel/tunnel.go:329-334 | when only the ack's flag is lost, every run that cannot go on has finished if the destination had less than a window to send, and has hung after exactly one window if it had more; with exactly one window it has delivered all of it and has finished if and only if the last Read reported the end together with data |
| TunnelNegotiation.CompletesUnlessEchoLost | internal/tunnel/tunnel.go:304-357 | every failure-free run on every input delivers both inputs if and only if the echo of the flag survives or was never sent |
| TunnelNegotiation.RunKeepsGated | internal/tunnel/tunnel.go:344-357 | with the echo lost, no grant is ever sent to the gated reader |
| TunnelOverflow.BigChunksNeverOverflow | internal/tunnel/tunnel.go:35-39 | with flow control and chunks of at least 128 bytes, in every run, aborts included, an arriving chunk finds room and no stream is reset |
| TunnelOverflow.SmallChunksOverflow | internal/tunnel/tunnel.go:371-382 | for every chunk size from 1 to 127 there is a run without any abort that resets the stream |
| TunnelOverflow.InboxBoundIsExact | internal/tunnel/tunnel.go:35-39 | no run with chunks of at least m bytes resets a stream if and only if m >= 128 |
| TunnelOverflow.RoomForHead | internal/tunnel/tunnel.go:371-373 | a travelling chunk and the chunks in the inbox share the window, so there is a free slot |
| TunnelManager.Stream.constructor | internal/tunnel/tunnel.go:77-80 | a new stream has the full window and empty buffers |
| TunnelManager.Stream.TakeCredit | internal/tunnel/tunnel.go:84-106 | waits exactly as long as there is no credit and the stream is open, whatever grants and aborts arrive meanwhile, each of which acts as in the network model; credit before plus the bytes granted is credit after plus the bytes reserved; it reserves the lesser of credit and maximum, or 0 when closed, and has then run the TakeCredit section of the network model |
| TunnelManager.WokenKeepsOutbound | internal/tunnel/tunnel.go:110-130 | grants received while waiting add up to the credit, byte for byte, nothing else of either direction changes, and the stream is closed exactly when it was or an abort is among the wake-ups |
| TunnelManager.Stream.Abort | internal/tunnel/tunnel.go:119-130 | closes done and the connection; a second call does nothing |
| TunnelManager.Manager.Data | internal/tunnel/tunnel.go:364-383 | state, map and messages are those of the delivery section, run to its end after a reset |
| TunnelManager.DataIsSections | internal/tunnel/tunnel.go:364-383 | that end is the delivery of the network model, followed after a reset by abort and unregister |
| TunnelManager.Manager.AddCredit | internal/tunnel/tunnel.go:387-395 | a registered stream gets a positive credit; anything else changes nothing |
| TunnelManager.Manager.CloseStream | internal/tunnel/tunnel.go:402-409 | closes the inbox of a registered stream and leaves it in the map |
| TunnelManager.Manager.Ack | internal/tunnel/tunnel.go:344-357 | a positive ack adopts the peer's flag and makes the stream ready; a negative one fails it |
| TunnelManager.Manager.OpenDest | internal/tunnel/tunnel.go:304-337 | a dialled stream is registered with the source's flag, which is echoed; a failed dial leaves no stream |
| TunnelManager.Manager.MarkDone | internal/tunnel/tunnel.go:417-430 | records one direction; when both have ended the stream is aborted and unregistered |
| TunnelManager.FinishIsSections | internal/tunnel/tunnel.go:417-430 | markDone is the marking section followed, when both directions have ended, by abort and unregister of the network model |
| TunnelManager.AbortAndUnregister | internal/tunnel/tunnel.go:426-429 | the three sections of the end of a stream, run without interruption, equal the one update of markDone and of Data's reset |
| TunnelManager.UnregisterAndAbort | internal/tunnel/tunnel.go:286-296 | the three sections of StopListener and Shutdown, run without interruption, equal their one update |
| TunnelManager.Manager.WriterTurn | internal/tunnel/tunnel.go:441-462 | take, write and grant, as the three writer sections: the first chunk of the inbox is written, and its length granted back |
| TunnelManager.Manager.WriterFails | internal/tunnel/tunnel.go:451-455 | after a failed write only the bytes before the failure are on the connection, and the stream is aborted and unregistered |
| TunnelManager.Manager.WriterEnd | internal/tunnel/tunnel.go:442-449 | half-close and end of the direction when the inbox is closed and drained |
| TunnelManager.Manager.ReaderTakes | internal/tunnel/tunnel.go:481-496 | emits what was read and returns the unused credit, as the two reader sections: the bytes read move from unread to taken, and with flow control the credit grows by the budget less what was read |
| TunnelManager.Manager.ReaderCloses | internal/tunnel/tunnel.go:497-504 | emits tunnel_close and ends the direction |
| TunnelManager.Manager.StopListener | internal/tunnel/tunnel.go:279-297 | exactly the tunnel's streams leave the map, aborted; the others are untouched |
| TunnelManager.Manager.Shutdown | internal/tunnel/tunnel.go:160-176 | every stream leaves the map, aborted |
| MigrationResults.DoneMeansTransferred | internal/migration/migration.go:250-289 | when migration_done is emitted, a listed file was skipped if and only if the completed set has it with the same size and the same modification time; every other one has a warning, or is on disk as it was hashed on its accepted attempt with its announced size; completed files and warnings add up to the list; bytesTransferred is the sum of the sizes of the files done; the status is completed if and only if no file has a warning, and then bytesTransferred is the whole total |
| MigrationResults.ProgressIsKept | internal/migration/migration.go:297-363 | at any moment of any run accepted files stay on disk as hashed, no file is announced more than three times, and between files the byte counter is the size of what is done |
| MigrationResults.AcksNeverStale | internal/migration/migration.go:375-419 | while streaming, every ack in transit or queued is of the current attempt and acked <= written <= sent; a verdict that can be taken belongs to the attempt that waits for it, and a positive one means the file is on disk |
| MigrationAttempts.GivenUpAfterThree | internal/migration/migration.go:297-363 | in every run, counted from its messages, a file has the warning TRANSFER_CHUNK_MAX_RETRIES if and only if exactly three headers of it were sent and all three verdicts were refusals; no file has more than three headers, and a file is accepted if and only if one verdict on it was |
| MigrationAttempts.RefusedIsTriedAgain | internal/migration/migration.go:349-356 | in every run, after a refusal with fewer than three headers the same file is still in progress without a warning, and, when the window holds 2^20 bytes or the whole file, a run exists that announces it again and has it accepted and on disk as hashed |
| MigrationAttempts.StepKeepsTally | internal/migration/migration.go:297-363 | every step keeps, for every file, headers, refusals and acceptances in line with the attempt that is in progress and the outcome that is recorded |
| MigrationRemoval.RefusedIsRemoved | internal/migration/migration.go:739-742 | in every run, when a refusal is taken nothing is left at the destination path of its file, so that the next attempt starts clean; of a file that was refused three times nothing is there at any later time |
| MigrationRemoval.StepKeepsRemoved | internal/migration/migration.go:703-752 | every step keeps: while a refusal is on its way its file is absent, and files given up stay absent |
| MigrationCompletion.SessionsComplete | internal/migration/migration.go:250-289 | for every job, every state of the destination and every content of the listed sizes, when the window holds 2^20 bytes or each file, there is a run of full reads that finishes with the status completed and every file skipped or at the destination as the source has it |
| MigrationSteps.StepKeepsInv | internal/migration/migration.go:250-447 | every step of source, destination, channels and damage keeps the session invariant |
| MigrationInvariant.DoneArrives | internal/migration/migration.go:703-752 | file_done of an accepted header is answered by one verdict, positive only when the file on disk is what was hashed; a refused header is not answered |
| MigrationInvariant.PostKeepsAcks | internal/migration/migration.go:436-447 | queueing or dropping an ack keeps the rest of this attempt and at least 2^20 bytes apart |
| MigrationInvariant.DeliverDstKeepsInv | internal/migration/migration.go:626-752 | whatever the destination does with a message, the session invariant holds again |
| MigrationInvariant.CorruptKeepsInv | internal/migration/migration.go:679-683 | damage to any chunk in transit, noticed or not, keeps the session invariant |
| MigrationFlow.WindowMakesProgress | internal/migration/migration.go:374-386 | with window >= 2^20, in every run, a source blocked on the window has a chunk or a larger ack in transit or queued, unless the destination has marked the file broken, or an ack has been dropped and the parameters are outside NeverStalls |
| MigrationFlow.DeliverNeverDrops | internal/migration/migration.go:436-447 | when the window is at most 64 acks wide, or 65 together with a chunk, the drop branch of srcWindowAck is not taken |
| MigrationFlow.DropKeepsGap | internal/migration/migration.go:443-446 | dropped acks never hide so much from the source that the window lacks room for one more ack, within the limits of NeverStalls |
| MigrationFlow.StepKeepsFlow | internal/migration/migration.go:375-400 | every step keeps: the last chunk began inside the window and all unconsumed acks but the last lie inside it |
| MigrationLimits.WindowLimit | internal/migration/migration.go:201-208 | for every window and chunk size: no run of any job leaves the source blocked at an unbroken file with neither a chunk nor a larger ack on the way if and only if the window is at least 2^20 and either acks are never dropped or a chunk has at most 63 * 2^20 + 1 bytes |
| MigrationLimits.FullReadLimit | internal/migration/migration.go:388-400 | the same with reads that fill the buffer: if and only if the window is at least 2^20 |
| MigrationLimits.AckQueueLimit | internal/migration/migration.go:185 | no run of any job with these parameters drops a window ack if and only if window <= 64 * 2^20 or window + chunk size <= 65 * 2^20, although the source empties the queue after every chunk |
| MigrationLimits.SmallWindowStalls | internal/migration/migration.go:374-386 | whenever full reads fill the window, or end a file that is at least as long, short of 2^20 bytes, a run of full reads that leaves the source waiting although everything was written |
| MigrationLimits.FullStopIsMultiple | internal/migration/migration.go:375-398 | that point is the first multiple of the chunk size that fills the window, or the end of the file |
| MigrationLimits.LargeWindowDrops | internal/migration/migration.go:408-446 | for every larger window and every file of 65 acks a run in which all 65 reach the source while it waits for the first, and one is dropped |
| MigrationLimits.LongChunksStall | internal/migration/migration.go:443-446 | for every window and chunk size outside NeverStalls a run in which a dropped ack leaves the source waiting for good |
| MigrationRetry.RetryLimit | internal/migration/migration.go:297-363 | for every job: whatever chunks are damaged, every session with reads within the listed sizes and every file created goes on until it has finished or failed if and only if every file to be sent is shorter than the window; exactly then no file is abandoned |
| MigrationRetry.StuckSessions | internal/migration/migration.go:346-386 | over all runs, a session in which only giving up can follow waits for the verdict on a file that could not be created, or has a broken file and a full window, or has parameters outside NeverStalls |
| MigrationRetry.DamageCanPreventRetry | internal/migration/migration.go:675-683 | for every file of a job that is at least as long as the window, one damaged chunk can leave its first attempt waiting with nothing in transit, and no step but giving up can follow |
| MigrationRetry.OpeningRunKeepsAnswerable | internal/migration/migration.go:626-666 | as long as files can be created, the file of the attempt is open, or its header is on the way, or its verdict is |
| MigrationResume.ManifestNeverLies | internal/migration/migration.go:523-536 | over an unchanged tree, after any number of interruptions and crashes at any point, each followed by a restart, every manifest entry names a file with its size, time and digest that is at the destination with the tree's content |
| MigrationResume.RecordedIsNeverResent | internal/migration/migration.go:257-262 | over any history a header is never sent for a file that has an entry in the log as it is |
| MigrationResume.ChangedIsSentAgain | internal/migration/migration.go:257-262 | whatever earlier sessions over other trees have left in the log, a file is skipped if and only if its last entry has the size and the modification time that the file has now; one that has changed is, at the end of the session, on disk as hashed in that session, or has a warning |
| MigrationResume.UnrecordedIsSent | internal/migration/migration.go:257-262 | a file without an entry is never skipped |
| MigrationHistory.RecordedIsRemembered | internal/migration/migration.go:523-536 | over any history, every entry ever written in full is still reported at every later moment if and only if no append met an unterminated line and lost one of the two |
| MigrationHistory.RecordedIsNeverAnnounced | internal/migration/migration.go:257-262 | in such a history no file that was recorded in any earlier session is announced again |
| MigrationHistory.SpoiledIsAnnounced | internal/migration/migration.go:530-535 | conversely, after an append that loses an entry there is a history without appends in which the source announces a recorded file |
| MigrationHistory.UntornIsClean | internal/migration/migration.go:534-535 | no append loses anything if the destination never stops while it records a file |
| MigrationHistory.TornLineLosesNextEntry | internal/migration/migration.go:523-524 | a history of one file that is verified, recorded and accepted after a torn line, is reported by nothing, and is announced again |
| MigrationResume.FinishedMeansDelivered | internal/migration/migration.go:211-214 | when a session finishes at last, every file without a warning is at the destination with the tree's content, whichever session sent it |
| MigrationResume.WorldStepKeepsInv | internal/migration/migration.go:538-600 | restart, session steps, interruptions and a crash inside the log append all keep: log entries are true and their files are not touched again |
| MigrationResume.CrashKeepsLog | internal/migration/migration.go:534-535 | an entry torn at any byte leaves a truthful log |
| MigrationResume.ManifestHasLine | internal/migration/migration.go:830-847 | every reported path comes from a line of the log with that path |
| MigrationResume.ManifestKeepsLast | internal/migration/migration.go:828-829 | the last entry of a path is the one reported |
| MigrationModel.MakeJob | internal/migration/migration.go:201-208 | positive values of chunk size and window are used as they are, others are replaced by 1 MiB and 8 MiB; files and completed set are those of the message |
| MigrationSession.TargetsAreDistinct | internal/migration/migration.go:640 | different listed files are written to different paths |
| MigrationManager.Storage.Append | internal/migration/migration.go:534 | appends a line; after an unterminated line the two run together |
| MigrationManager.Storage.LoadManifestFile | internal/migration/migration.go:830-847 | the loop over the lines computes the manifest function |
| MigrationManager.DstSession.constructor | internal/migration/migration.go:568-574 | a session with the loaded manifest and no file in progress |
| MigrationManager.DstSession.RecordCompleted | internal/migration/migration.go:525-536 | map and log both get the entry |
| MigrationManager.DstSession.DstFile | internal/migration/migration.go:626-666 | fields and disk after a header are those of the session model, on the refusing paths too |
| MigrationManager.DstSession.DstChunk | internal/migration/migration.go:668-701 | fields, disk and acks after a chunk, damaged and half-written ones too |
| MigrationManager.DstSession.DstFileDone | internal/migration/migration.go:703-752 | fields, disk, log and verdict after file_done |
| MigrationManager.SrcSession.PostAck | internal/migration/migration.go:423-447 | never blocks; a full channel drops the ack |
| MigrationManager.SrcSession.DrainBoth | internal/migration/migration.go:849-867 | both channels are empty afterwards |
| MigrationManager.SrcSession.ConsumeAcks | internal/migration/migration.go:408-419 | empties the window channel and returns what its acks confirm |
| MigrationManager.ConsumedIsMaximum | internal/migration/migration.go:412-414 | what they confirm is the maximum of the counter and all acks |
| MigrationManager.SumSizes | internal/migration/migration.go:233-236 | the loop computes the byte total of the listing |
| Paths.SafeJoinIsContainment | internal/migration/migration.go:802-810 | safeJoin accepts a name if and only if it resolves to the base or below it, and returns that path in clean form |
| Paths.RootDestinationRefusesFiles | internal/migration/migration.go:544 | under the base "/", which prepare accepts, it accepts a name if and only if the name resolves to "/" itself |
| Paths.JoinUndoesRel | internal/migration/migration.go:794-800 | joining the base and the relative path of any clean absolute path gives that path back |
| Paths.FileKeepsItsComponents | internal/migration/migration.go:794-810 | a file below the source root arrives below the destination root with the same relative components |
| Paths.FilesStayDistinct | internal/migration/migration.go:794-810 | different files below the source root arrive at different paths |
| Paths.PlainTargetsDistinct | internal/migration/migration.go:802-810 | safeJoin is injective on plain relative paths |
| RuleHistory.FiresIffHistorySaysSo | internal/rules/engine.go:57-116 | a rule fires at an evaluation if and only if, in its history, the condition has held for the duration since the last firing or the last false condition, every earlier firing is a cooldown ago, and the limit exceeds the firings of the current run of equal days |
| RuleHistory.CounterIsRunCount | internal/rules/engine.go:100-114 | the stored counter is the number of firings of the current run of equal days of the year |
| RuleHistory.StateRemembersSince | internal/rules/engine.go:76-84 | the stored start is where the current streak of true conditions without a firing began |
| RuleHistory.StateRemembersFiring | internal/rules/engine.go:113-115 | the stored last firing is the last firing of the history |
| RuleHistory.DailyLimitByDate | internal/rules/engine.go:100-111 | for a rule with a limit, the firings counted against an evaluation are those of its calendar day if and only if the last evaluation on another date that reached the limit was not on the same day of the year; and then the limit is on the firings of that day |
| RuleHistory.RunCountIsDayCount | internal/rules/engine.go:102-106 | the same for any day that is not earlier than the history; otherwise too many are counted |
| RuleHistory.YearWrapSuppresses | internal/rules/engine.go:103-106 | a history in which the same day a year later starts with the old count, so a rule that has not fired that day is suppressed |
| RuleHistory.DailyLimitHolds | internal/rules/engine.go:102-111 | no calendar day has more firings than the limit, although only the day of the year is stored |
| RuleHistory.FiringsAreApart | internal/rules/engine.go:86-98 | two firings are at least the cooldown and at least the condition's duration apart |
| RuleHistory.FiringRate | internal/rules/engine.go:86-98 | the firings in an interval, less one, times that distance fit into the interval |
| RuleHistory.PassIsReplay | internal/rules/engine.go:57-120 | one pass over the rules moves each rule's state and fires it as its own evaluation alone would |
| RuleHistory.EngineRefinesHistory | internal/rules/engine.go:42-46 | over any sequence of Sync and Evaluate each rule's state and firings are those of its own history; Sync keeps the state |
| RuleHistory.EngineFiresByHistory | internal/rules/engine.go:49-121 | so the engine reports a rule at exactly the times its history says |
| RuleHistory.EngineFiresWhenDue | internal/rules/engine.go:42-121 | from end to end: over any run of Sync and Evaluate whose clock does not run backwards, a rule is reported at exactly the times at which its history makes it due |
| RuleHistory.WhatEntersHistory | internal/rules/engine.go:57-67 | an evaluation enters a rule's history if and only if the rule is enabled and its metric has a value, with the condition as its operator compares that value and the threshold, and with the rule's own limits; it enters no other rule's history |
| RuleHistory.PlainRuleFires | internal/rules/engine.go:57-116 | a rule without duration and daily limit fires at its first evaluation if and only if it is enabled, its metric has a value and the value compares as its operator says |
| RuleEngine.ExtractMetric | internal/rules/engine.go:202-234 | the switch and the search loop compute the metric's value, of which the next five rows say what it is |
| RuleEngine.FieldMetrics | internal/rules/engine.go:204-220 | the processor and each of the three loads have the value of their own field |
| RuleEngine.UsageMetrics | internal/rules/engine.go:206-215 | memory and swap have no value if and only if their total is zero, and otherwise value times total is 100 times what is used |
| RuleEngine.DiskMetric | internal/rules/engine.go:222-231 | disk_ and a mount point have no value if and only if no disk has that mount point, and otherwise that of the first such disk |
| RuleEngine.FirstDiskDecides | internal/rules/engine.go:225-230 | the search through the disks stops at the first one with the mount point |
| RuleEngine.OtherNamesAreDisks | internal/rules/engine.go:222-233 | any other name that has a value is disk_ and a mount point that is not empty |
| RuleEngine.OperatorsAtEqual | internal/rules/engine.go:236-250 | at equal values exactly >=, <= and == hold |
| RuleEngine.OperatorsApart | internal/rules/engine.go:236-250 | at different values == fails, exactly one of < and > holds, and <= and >= follow them |
| RuleEngine.OperatorsAreMonotone | internal/rules/engine.go:236-250 | < is kept when the value falls and > when it rises, and each holds somewhere |
| RuleEngine.UnknownOperatorNeverHolds | internal/rules/engine.go:236-250 | an operator that is none of the five never holds |
| RuleEngine.RuleState.Turn | internal/rules/engine.go:76-116 | the per-rule branch sequence moves the fields as the state machine does and fires when it does |
| RuleEngine.Engine.Sync | internal/rules/engine.go:42-46 | replaces the rules and keeps every state |
| RuleEngine.Engine.Observed | internal/rules/engine.go:69-116 | only the rule's own state changes; a missing one starts fresh |
| RuleEngine.Engine.EvaluateRule | internal/rules/engine.go:57-120 | a rule that is disabled or whose metric has no value changes nothing and does not fire; any other has its turn with what was observed |
| RuleEngine.Engine.Evaluate | internal/rules/engine.go:49-121 | the loop computes the pass over the rules, states and firings |
| OfflineBuffer.KeysSortAsNumbers | internal/buffer/buffer.go:99-103 | byte order of keys is numeric order of sequence numbers, both ways, over all of 64 bits |
| OfflineBuffer.Itob | internal/buffer/buffer.go:99-103 | the eight bytes filled in place are the big-endian encoding |
| OfflineBuffer.NextKeyIsLast | internal/buffer/buffer.go:50-62 | the next key goes behind all present ones |
| OfflineBuffer.DeleteAt | internal/buffer/buffer.go:53-60 | deleting the key of any entry of an ordered bucket removes exactly that entry |
| OfflineBuffer.Encode | internal/buffer/buffer.go:44-47 | a snapshot is stored if and only if it encodes, and is then read back as it was |
| OfflineBuffer.Buffer.Push | internal/buffer/buffer.go:43-64 | the bucket is the bounded deque after the push: newest at the end, oldest dropped, nothing for a snapshot that does not encode |
| OfflineBuffer.Buffer.Drain | internal/buffer/buffer.go:67-84 | returns everything in push order and leaves an empty bucket whose sequence starts again |
| OfflineBuffer.Buffer.Count | internal/buffer/buffer.go:87-97 | the number of entries |
| OfflineBuffer.PushAllKeepsNewest | internal/buffer/buffer.go:17-64 | after any pushes the buffer holds the most recent 2000 of them in order |
| OfflineBuffer.Agent.Report | internal/agent/agent.go:425-430 | what cannot be sent is stored, if there is a buffer |
| OfflineBuffer.Agent.DrainBuffer | internal/agent/agent.go:463-496 | a delivered batch is the whole buffer in order; a failed one is stored back between whatever else is pushed meanwhile |
| OfflineBuffer.UndisturbedDrain | internal/agent/agent.go:487-492 | with no other push in between, a failed drain leaves the buffer as it was |
| OfflineBuffer.FailedDrainWithPushes | internal/agent/agent.go:487-492 | for any interleaving of pushes with a failed drain, the buffer is in push order if and only if nothing was pushed before the last entry was stored back, and the first such push is lost, older ones staying, if and only if what comes after it does not fit |
| DumpNames.DumpNameRoundTrip | internal/database/backup.go:497-513 | a printed name is a recognised dump that names its engine, and ends in .archive.gz if and only if the engine is mongodb, in .sql.gz otherwise; the database read back is the one printed, whatever underscores it has, if and only if the timestamp has none |
| DumpNames.DumpsAreRestorable | internal/database/backup.go:484-487 | what dump prints for an accepted database name passes safeDumpPath's test of the name and is attributed to that engine and database |
| DumpNames.DumpNamesAreDistinct | internal/database/backup.go:86 | equal names mean equal engine, database and time |
| Text.JoinSplit | internal/database/backup.go:511 | joining undoes splitting |
| Text.SplitJoin | internal/migration/migration.go:805 | splitting undoes joining of parts without the separator |

## Left out

- TunnelHalfClose.HalfCloseMeansComplete: the reset of the sender is excluded for the reason shown by TunnelOverflow.ResetTruncates.
- TunnelManager.Manager.Data: looking a stream up and choosing in the select are one step; a stream that is aborted in between has left the map before, so that the chunk is the last one it could have taken.
- TunnelManager.Stream.TakeCredit: testing done and going to wait is one step; abort broadcasts without the lock, and a wake-up lost in between is not modelled.
- TunnelManager.Manager.OpenDest: an abort while the dial is in progress is not modelled.
- TunnelManager.Manager.WriterTurn: the two loops of relay are modelled one turn at a time, because between any two sections the other goroutines may run; all interleavings of the sections are in the network model.
- MigrationLimits.FullReadLimit: for a window that outgrows the ack channel it is stated for chunks of at most 63 * 2^20 + 1 bytes, the bound that WindowLimit shows to be exact for free reads.
- MigrationLimits.LargeWindowDrops: its reads, and those of LongChunksStall, end at multiples of 2^20, which `Read` permits and which are full reads when the chunk size divides 2^20.
- MigrationRetry.RetryLimit: reads beyond the listed size, of a file that grows while it is sent, are not part of it.
- MigrationHistory.SpoiledIsAnnounced: on the way to the lost file, uncovered files before it are taken to have disappeared.
- MigrationManager.Storage.Append: the manifest file is taken to be open; when it could not be opened, the code records in memory only.
- MigrationModel.MakeJob: `startSource`, `sendFile` and `streamChunks` are modelled as the steps of one machine and not as loops in a method, because the other end acts between any two of them; a read error, a timeout and a cancellation are one failing step that may come at any time.
- RuleEngine.Engine.Evaluate: values are real numbers, so not-a-number and rounding are not modelled, and the product of seconds and nanoseconds does not overflow.
- OfflineBuffer.Buffer.Push: the sequence counter is required not to wrap.
- Loss of the channel in the middle of a run: a run of the tunnel or of a session is on one connection; a lost connection ends the session, and MigrationResume covers what comes after.
- Two migration sessions of one identifier that overlap, the wrap-around of the 32-bit file number, and a migration whose source is a single file.
- File modes, restored times, and the loss of file data that the operating system has not yet written when the power fails.
- The delta scan (`internal/migration/migration.go:586-593`): equal size and time is a heuristic for equal content.
- The progress report (`internal/migration/migration.go:449-478`), estimation and the walk with its exclusions.
- Listeners, the accept loop and the source's wait for the ack (`internal/tunnel/tunnel.go:189-276`), apart from the streams they create; timers, JSON, base64 and logging.
- The action of a fired rule (`internal/rules/engine.go:123-199`).
- Reconnection and its backoff (`internal/connection/client.go`), and the rest of the WebSocket client.
- Database clients and their statements, the rest of backups, terminal, executor, file manager, collectors, updater, installer and the privileged helper: drivers and operating-system calls around small pure parts.
