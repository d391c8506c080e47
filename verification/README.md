# Sumpter: a verified model of its protocols and paired routes

This project models, in Dafny 4.11, the parts of Sumpter whose correctness depends on the
order of file operations under crashes, competing processes or failing I/O, and the pairs of
routes that must agree.

| area | modules | what is proved |
|---|---|---|
| Process-run slot | `SlotModel`, `SlotSafety`, `SlotRecovery`, `SlotCrash`, `SlotStuck`, `SlotFailures`, `SlotOwner`, `SlotCleanup` | Many processes compete for one run directory. A step is one system call or one question to the liveness oracle; a process may die between any two steps. At most one living process owns the slot, and no one else replaces its claim or card. In every run without a failing call a contender that comes after the crashes recovers the slot, unless claim.json was left half written; with failing calls it is given the slot, and recovers it cleanly, exactly under stated conditions. A slot that is stuck stays so through any number of contenders one after the other, and three runs that end in one are built call by call. An owner whose calls succeed publishes, withdraws and abandons as it says, among any other processes, and takeovers and failed writes leave nothing of theirs behind. |
| Durable aggregate commit | `CommitNames`, `DurableDisk`, `DurableCommit` | A directory with a visible and a durable view, where any subset of the entry changes since the last sync may survive. At every crash point a surviving manifest is complete and every committed shard is intact; a commit into a directory with room for it, with no step failing, succeeds. |
| Two commits at once | `CommitExclusion`, `CommitProgress`, `CommitAbort` | Any number of commits on one output directory: at most one is past prepare, although the lock is given back before the manifest rename, and no one removes another's file. A lone commit whose calls succeed never aborts and can commit any shards; an abort whose removals succeed leaves nothing of its own. |
| Index publication | `IndexPublication`, `IndexBuild` | Several index writers: all-or-nothing up to Complete, by peeling layers in reverse order, and published exactly if the inputs allow it and no operation fails. Writers may share paths. |
| Index stream | `IndexStream`, `IndexReferences` | The progressive writer and the streaming reader undo each other; the reader accepts exactly the well-formed documents; an early header is not changed by later reads; references of the records still resolve in the header that was read back. |
| Index contents | `IndexTypes`, `IndexStats`, `NamespaceTable`, `VerifyJson` | Statistics and percentiles, the two-pass namespace table, and the lockstep verifier, composed with the stream so that a built index verifies. |
| Event emitter | `Emitter` | A mutex-guarded state machine that gives its mutex up in the middle of an operation, over every interleaving. |
| Staging budget | `Staging` | Reservations are conserved and bounded over every interleaving of acquisitions, and a turn at the budget is decided by what is outstanding. |
| Value profile | `ValueProfile`, `Collector` | Transactional staging equals direct observation of the committed data, in any order. |
| Extraction | `SinkRoute`, `RecordSignature`, `InternalFields` | The sink route refines the buffered one, both signature loops agree, and derive-only fields are a projection. |
| Code spans | `CodeSpan` | The Markdown code span printer is inverted by section 6.1 of CommonMark 0.31.2, and an escape determines its character. |

`Wrappers` holds `Option` and `Result`, `Text` holds Go's white space trimming.

`dafny verify dfyconfig.toml` checks everything.

## How the models are built

- Concurrency is a labelled transition system: a state, a step per critical section or system
  call, and lemmas over every run. Where the source is an object with fields, a class with the
  same fields is proved against the step functions (`Emitter.FileEmitter`,
  `Staging.StagingBudget`) or carries the contracts itself (`DurableCommit.LocalAggregateCommit`,
  `IndexPublication.JSONIndexWriter`, `IndexStream.RecordIndexStream`).
- Every file operation may fail, a failed write may have written any part, and a map is walked
  in any order. In `DurableCommit` and `IndexPublication` which of the coming operations fail is a
  list that the directory holds, so that success is owed when none does and a run with given
  failures can be named; in `DurableCommit` a set of failing steps comes with it.
- The liveness oracle may call a dead process live but never a live one dead. A partly written
  claim does not parse.
- Fresh temporary and backup names repeat no existing name and no final path
  (`IndexPublication.Directory.taken`).
- Hashing, the walk of a record scanner over the bytes, XPath and expression evaluation are
  functions given as parameters.

## What the code does not meet

Each of these is stated with the exact condition under which the property holds, except for the
staged file: there the condition is only sufficient, beside a run that fails without it.

- A process that dies between the create and the write of claim.json leaves a stuck slot. In runs
  without a failing call this is the only crash that does (`SlotCrash.SmoothCrashIsRecovered`).
- With failing calls a slot also gets stuck because a card outlives its claim, or because a claim
  is quarantined under another claim's token (`SlotFailures.NotEveryCrashIsRecoverable`, three
  runs in all). Contenders that come to a stuck slot one after the other, with every call
  succeeding, are all turned away and leave it stuck (`SlotStuck.LostStaysLost`).
  `SlotRecovery.LoneContenderRecovers` gives both conditions on the directory both ways; over
  runs, as long as every quarantine was named after the token inside it, a slot is recovered
  exactly if claim.json is complete, or it is absent and no card stands alone
  (`SlotCrash.CrashIsRecoveredIff`).
- Abort goes on to remove shards when invalidating the manifest failed, and it does not invalidate
  again after an invalidation whose sync failed; a crash can then show a manifest without a shard
  (`DurableCommit.SkippedInvalidation`, a whole commit). An abort is safe at every point
  exactly if no crash can show a marker once its invalidation returned, or no shard was removed
  (`DurableCommit.LocalAggregateCommit.Abort`).
- A Complete that fails leaves the writers up to it published and rolls the later ones back
  (`IndexBuild.BuildTo`, outcome `HalfCompleted`).
- The emitter ignores the error of removing its stream. A removal that fails retains a partial
  line and still tells the owner (`Emitter.FailedRemovalRetainsPartialLine`); the owner is told
  with the file still there exactly then (`Emitter.WithholdFiresOnceAfterRemoval`).
- A staged file whose removal fails on an error path is given back to the budget all the same
  (`Staging.FailedRemovalBreaksTheCap`).
- Committing an input whose only values print as empty text, after some text, turns a uuid or
  email shape into freeform (`Collector.ShapeIsDirectIff`).
- Two different namespace contexts can share a key when a URI holds a line feed or a prefix an
  equals sign (`NamespaceTable.KeysCollide`, `NamespaceTable.PrefixCollides`). With prefixes as XML
  has them, contexts share a key exactly if cutting their URIs at the line feeds that a declaration
  follows gives the same declarations (`NamespaceTable.KeysAgreeIff`).
- The check for an external field of an internal mapping's name compares trimmed names, but
  values are stored under the name as written (`InternalFields.UntrimmedNameIsShadowed`).
- After a scoring error the streaming route keeps the lowest confidence so far, and the
  whole-document route reports 0 (`RecordSignature.RoutesAgree`).
- `mdVisible` shows a backslash as it is, so the text `\n` and a line feed look the same
  (`CodeSpan.BackslashIsAmbiguous`); without backslashes the visible form reads back
  (`CodeSpan.VisibleReadsBack`).
- `mdVisible`'s comment says that C1 controls print as `\xNN`; the code prints them as `\uXXXX`,
  and the model follows the code (`cmd/sumpter/commands/inspect_markdown.go:8-29`).

## Model

| member | source | states |
|---|---|---|
| SlotSafety.OwnerKeepsClaim | internal/processrun/card.go:206-300 | in every state of every run, a living process that was given a token and has not abandoned it finds its own complete claim with that token in claim.json |
| SlotSafety.AtMostOneOwner | internal/processrun/card.go:206-300 | in every state of every run at most one living process owns the slot |
| SlotSafety.NoOneElseReplaces | internal/processrun/card.go:533-643 | no step and no death of another process changes what claim.json names or removes a published card while its owner lives |
| SlotSafety.LockExcludes | internal/processrun/reclaim_lock.go:28-60 | two living processes never hold reclaim.lock at once, because its inode is never unlinked |
| SlotSafety.OwnerIsUnique | internal/processrun/card.go:758-827 | from the invariant, two living processes past a successful claim write are one |
| SlotSafety.StepKeepsInv | internal/processrun/card.go:206-300 | every step of every process keeps the invariant: the directory facts and what each living process knows at its point |
| SlotSafety.StepIsGood | internal/processrun/card.go:206-1015 | every step does only what the guarantee permits and leaves the caller with what its next point needs |
| SlotSafety.OthersKept | internal/processrun/card.go:533-643 | a permitted call of one process keeps what every other living process knows |
| SlotSafety.ClaimKept | internal/processrun/card.go:665-685 | a permitted call changes claim.json of a living writer only by that writer itself |
| SlotSafety.DeathKeepsInv | internal/processrun/reclaim_lock.go:28-60 | a death at any point keeps the invariant; its kernel lock is released |
| SlotSafety.RunKeepsInv | internal/processrun/card.go:206-300 | the invariant holds in every state of every run |
| SlotSafety.RepairStepIsGood | internal/processrun/card.go:339-385 | recovery of an orphaned takeover only restores or drops names whose writers are dead |
| SlotSafety.SwapStepIsGood | internal/processrun/card.go:533-643 | a takeover quarantines and unlinks only the dead claim it verified |
| SlotSafety.WriteStepIsGood | internal/processrun/card.go:758-795 | the exclusive write of a claim, and the cleanup of a failed one, touch no other claim |
| SlotSafety.SweepStepIsGood | internal/processrun/card.go:961-984 | one step of Sweep keeps the guarantee: it withdraws only its own card and replaces only its own claim (what a whole Sweep leaves is `SlotOwner.SweepWithdraws`) |
| SlotSafety.OwnerStepIsGood | internal/processrun/card.go:851-1015 | one step of publish and abandonSetup keeps the guarantee: it touches only what the process owns (`SlotOwner.PublishShows`, `SlotOwner.AbandonRemoves` for the whole calls) |
| SlotOwner.SweepWithdraws | internal/processrun/card.go:961-983 | from every state of every run, among any other steps: an owner that is asked to sweep and whose calls succeed ends with no card.json of its own, without `ownedCard`, and with claim.json a complete exited body of its own token |
| SlotOwner.PublishShows | internal/processrun/card.go:851-917 | likewise, an owner asked to publish ends with its own complete card in card.json and no temporary, or, if a card was there, leaves that one and goes on to abandon |
| SlotOwner.AbandonRemoves | internal/processrun/card.go:989-1012 | likewise, an owner that abandons its setup removes claim.json, and its card if it had published one |
| SlotOwner.AbandonBegins | internal/processrun/card.go:989-1012 | an owner without a card begins to abandon at once, one with a card does not |
| SlotOwner.FreshOwns | internal/processrun/card.go:216-232 | a process that finds no directory and whose calls succeed ends as owner of its own claim |
| SlotCleanup.TakeoverTidies | internal/processrun/card.go:640-690 | a contender that has written its claim over a dead one ends as owner, and no card, lease, quarantine or temporary file of anyone is left |
| SlotCleanup.FailedTakeoverRestores | internal/processrun/card.go:632-660 | a takeover whose claim could not be written puts the dead claim back under its name and drops the quarantine |
| SlotCleanup.FailedFreshIsUndone | internal/processrun/card.go:221-232 | a fresh claim that could not be written is removed, and the directory with it unless something else is in it |
| SlotCleanup.LeavingRemovesEmpty | internal/processrun/card.go:1008-1012 | abandonSetup's last call removes the directory exactly if it is empty |
| SlotCleanup.FailedSweepTidies | internal/processrun/card.go:799-827 | a tombstone that cannot be moved into place is removed, and nothing else |
| SlotRecovery.LoneContenderRecovers | internal/processrun/card.go:273-385 | a lone contender holding the lock is given the slot if and only if the directory is not stuck, and ends as owner of its own claim with no quarantine and no lease left if and only if the directory is recoverable |
| SlotCrash.SmoothCrashIsRecovered | internal/processrun/card.go:206-385 | in every run in which no call fails, whoever died wherever: a contender that finds the directory and nobody else alive takes the lock and ends as owner of its own claim, with no quarantine and no lease left, if and only if claim.json is not an incomplete file |
| SlotCrash.CrashIsRecoveredIff | internal/processrun/card.go:206-385 | in every run, whatever failed: a contender that has owned nothing and finds nobody else alive is given the slot if and only if it is not stuck, and recovers it cleanly if and only if the directory is recoverable; while every quarantine was named after its own token, both if and only if claim.json is complete, or it is absent and no card stands alone |
| SlotCrash.TrueNamesRecover | internal/processrun/card.go:339-385 | in every run in which quarantines have carried their own tokens, what is recoverable is decided by the presence of claim, quarantine and card |
| SlotCrash.RunAgrees | internal/processrun/card.go:575-627 | in such a run claim.json never disagrees with the quarantine of its own token |
| SlotCrash.RunIsSmooth | internal/processrun/card.go:206-690 | in every state of a run without a failing call each quarantine parses and carries its own token, no card outlives both its claim and every quarantine, and no living process has left a claim, card or lease behind |
| SlotCrash.SmoothStepKeeps | internal/processrun/card.go:206-690 | one such step of any process at any program point keeps all of that |
| SlotCrash.OthersKnowMore | internal/processrun/card.go:206-690 | a careful call of one process keeps what the others know about claim, card and lease |
| SlotCrash.DirsKept | internal/processrun/card.go:216-235 | the directory and reclaim.lock stay, and at most one process can create claim.json without the lock |
| SlotCrash.SettledKept | internal/processrun/card.go:547-582 | once a takeover has read a claim whose token it will quarantine, no other process can put another claim in its place |
| SlotCrash.PartialIsDecided | internal/processrun/card.go:276-284 | an unreadable claim seen by the lock holder is a dead one or the fresh one |
| SlotCrash.RunIsTraced | internal/processrun/reclaim_lock_unix.go:1-26 | in every run kernel locks belong to living processes at a locked point, lease temporaries carry issued tokens, and every body has a writer |
| SlotCrash.OutsiderIsStrange | internal/processrun/card.go:206-300 | a process that never wrote a claim nor elected a lease has no file in the slot but reclaim.lock |
| SlotFailures.NotEveryCrashIsRecoverable | internal/processrun/card.go:593-627 | three runs that end with everybody dead and the slot stuck: a claim that was created and never written, a card that outlived its claim, and two quarantines that hold the same token |
| SlotStuck.LostStaysLost | internal/processrun/card.go:206-300 | in every run, from a stuck slot with everybody dead on: while contenders come one after the other and every call succeeds, whether they retry, give up or die anywhere, the slot is stuck in every later state, nobody owns it, and each attempt ends without being given the slot |
| SlotStuck.StepStaysStuck | internal/processrun/card.go:273-385 | one such call of a contender keeps the slot stuck and the contender where it cannot own it |
| SlotStuck.PutPins | internal/processrun/card.go:647-660 | putting back a quarantine that disagrees moves the disagreement to claim.json |
| SlotFailures.LostTurnsAway | internal/processrun/card.go:206-270 | a new process can always come to a lost slot, and its attempt ends without being given it |
| SlotFailures.CalmExists | internal/processrun/card.go:206-270 | a living process always has a next call that succeeds with a truthful oracle, so the recovery theorems are about actual runs |
| SlotRecovery.NeitherIsUnreadable | internal/processrun/card.go:286-299 | recoverable and stuck exclude each other, and between them lies exactly the slot with unreadable quarantines and neither claim nor card, which is given but not clean |
| SlotRecovery.RecoverableWithoutLease | internal/processrun/card.go:393-413 | whether a slot is recoverable, or stuck, does not depend on a lease file |
| SlotRecovery.StatEnds | internal/processrun/card.go:339-385 | from the look at claim.json on, every continuation ends, with the slot given exactly when it is not stuck and cleanly owned exactly when recoverable |
| DurableCommit.LocalAggregateCommit.Publish | cmd/sumpter/commands/durable_commit.go:90-450 | a whole commit: at every directory state up to its end a crash shows no manifest, or a complete one with every shard intact; on success marker, shards and sidecars are durable; when no step fails and the directory has neither the lock nor an artifact and room for the sidecars, it succeeds; after a failure the abort too is safe at every state if and only if no crash can show a marker once its invalidation returned, or no shard is missing at the end |
| DurableCommit.LocalAggregateCommit.Prepare | cmd/sumpter/commands/durable_commit.go:90-155 | succeeds if and only if the lock is not there, no artifact is, and none of its steps fails; then the lock is held and durable and no crash can show an older manifest; nothing that was there is removed |
| DurableCommit.LocalAggregateCommit.OpenShard | cmd/sumpter/commands/durable_commit.go:300-314 | a new staging file at the shard's name plus .partial, never over an existing one |
| DurableCommit.LocalAggregateCommit.FinalizeShard | cmd/sumpter/commands/durable_commit.go:323-339 | nil means the shard's bytes are synced |
| DurableCommit.LocalAggregateCommit.CommitShards | cmd/sumpter/commands/durable_commit.go:341-355 | nil means every shard stands at its final name with its synced body and every rename is durable; no crash on the way shows a marker |
| DurableCommit.LocalAggregateCommit.WriteAtomicFile | cmd/sumpter/commands/durable_commit.go:383-450 | nothing a reader relies on changes before the rename; the rename shows a complete file; for the manifest the lock is gone one step earlier |
| DurableCommit.LocalAggregateCommit.WriteSidecar | cmd/sumpter/commands/durable_commit.go:357-364 | nil means the sidecar is complete and visible; marker and shards are untouched |
| DurableCommit.LocalAggregateCommit.WriteManifest | cmd/sumpter/commands/durable_commit.go:366-381 | every state on the way is safe, and nil means that marker, shards and sidecars are durable |
| DurableCommit.LocalAggregateCommit.ReleaseLock | cmd/sumpter/commands/durable_commit.go:462-474 | removes the lock exactly if it was held and the removal succeeds |
| DurableCommit.LocalAggregateCommit.InvalidateMarker | cmd/sumpter/commands/durable_commit.go:476-492 | afterwards no crash can show the marker if and only if none could before or the marker was renamed and the call returned nil |
| DurableCommit.LocalAggregateCommit.Abort | cmd/sumpter/commands/durable_commit.go:494-530 | removes only the run's own paths, its marker and its lock, and nothing after a commit; from settled shards every state on the way is safe if and only if no crash can show a marker once its invalidation returned, or no shard was removed |
| DurableCommit.LocalAggregateCommit.ConfirmMarker | cmd/sumpter/commands/durable_commit.go:366-381 | the directory sync after the rename, or the marker taken back; every state is safe, and after two failed syncs the marker may still show although its record is cleared |
| DurableCommit.SkippedInvalidation | cmd/sumpter/commands/durable_commit.go:366-515 | a whole commit of any shards into an empty directory in which exactly the sync after the marker's rename and the sync after its removal fail: abort skips the invalidation, removes the shards and passes through a state in which a crash shows the manifest without a shard |
| DurableCommit.AbortAfterUnsyncedInvalidationIsUnsafe | cmd/sumpter/commands/durable_commit.go:499-515 | if the marker may still show, removing it without a sync and then a shard lets a crash show a manifest without its shard |
| DurableDisk.RemovingShardIsSafeIff | cmd/sumpter/commands/durable_commit.go:499-515 | removing a shard's entry keeps the promise if and only if no crash can show a marker |
| DurableDisk.SyncedShowsView | cmd/sumpter/commands/durable_commit.go:263-288 | after a directory sync a crash shows exactly the visible entries |
| DurableDisk.SettledIsSafe | cmd/sumpter/commands/durable_commit.go:366-381 | settled shards and a complete marker are safe in every crash image |
| DurableCommit.CleanScan | cmd/sumpter/commands/durable_commit.go:90-155 | a clean scan of a synced directory rules out any marker a crash could show |
| CommitNames.LockIsNoArtifact | cmd/sumpter/commands/durable_commit.go:167-175 | the lock's name is no artifact name |
| CommitNames.ArtifactIff | cmd/sumpter/commands/durable_commit.go:167-175 | the scan knows exactly the four fixed names, numbered shards, staging files and the temporaries of the manifest and the sidecars |
| CommitNames.CreatedIsArtifact | cmd/sumpter/commands/durable_commit.go:167-175 | every name a commit creates but the lock's is an artifact: staging files, shards, manifest, sidecars and their temporaries |
| CommitExclusion.ScanKnows | cmd/sumpter/commands/durable_commit.go:143-175 | of the entries a commit makes the scan sees exactly those that are not the lock |
| CommitExclusion.AtMostOneCommit | cmd/sumpter/commands/durable_commit.go:90-155 | in every state of every run at most one living commit is past prepare or committed |
| CommitExclusion.OnlyOwnEntriesGo | cmd/sumpter/commands/durable_commit.go:494-530 | a directory entry that a step takes away or replaces was created by the process taking the step |
| CommitExclusion.CommittedStays | cmd/sumpter/commands/durable_commit.go:435-449 | the files of a living committed run stay |
| CommitExclusion.ActiveIsUnique | cmd/sumpter/commands/durable_commit.go:435-449 | the lock, or once it is dropped an artifact, tells two commits apart |
| CommitExclusion.AborterIsHarmless | cmd/sumpter/commands/durable_commit.go:494-530 | while one commit is past prepare, an aborting one has only its own temporaries left to remove |
| CommitExclusion.StepKeepsInv | cmd/sumpter/commands/durable_commit.go:90-530 | every step of every commit keeps the invariant |
| CommitProgress.LoneNeverAborts | cmd/sumpter/commands/durable_commit.go:90-450 | in every run of one commit whose calls succeed it never aborts; once committed the directory holds its shards, its sidecars and the marker and nothing else |
| CommitProgress.LoneCommits | cmd/sumpter/commands/durable_commit.go:90-450 | for any shards and sidecars there is a run that commits exactly these |
| CommitProgress.LoneStep | cmd/sumpter/commands/durable_commit.go:90-450 | one call that succeeds takes a lone commit forward, and the directory stays what its lists say |
| CommitAbort.AbortLeavesNothing | cmd/sumpter/commands/durable_commit.go:494-530 | in every run, whatever others do: a commit that gave up and whose removals succeeded leaves no entry of its own |
| CommitAbort.RunIsCovered | cmd/sumpter/commands/durable_commit.go:494-530 | until then every entry of a commit is one that it knows of and will remove |
| IndexBuild.BuildTo | internal/index/builder.go:46-272 | published if and only if no writer is nil or listed twice, the scan ended, the format can be written and every record encodes (if there is a writer), and no operation it makes fails; then every path holds the rendered index and nothing else changed. A failure before the first Complete leaves the directory exactly as it was, and a failed Complete the stated part of it published, unless yet another operation failed |
| IndexBuild.WriteAndCommit | internal/index/builder.go:150-265 | succeeds if and only if the scan ended, every record encodes and no operation fails; then every writer has published the rendered header, records and trailer |
| IndexBuild.CloseAll | internal/index/builder.go:49-55 | closing in reverse order peels every layer that is not completed; it does unless an operation fails |
| IndexBuild.CommitAll | internal/index/builder.go:261-265 | each commit turns one pending layer into a published one, or leaves a layer that can be peeled; all succeed exactly if no operation fails |
| IndexBuild.CompleteAll | internal/index/builder.go:266-270 | completed writers keep their path and no backup; it fails exactly if an operation does, and names the writer whose backup is left |
| IndexPublication.JSONIndexWriter.Start | internal/index/writer.go:48-103 | succeeds exactly if the writer is new, the format can be written and no operation fails: a new temporary file with the header; otherwise, if closing itself succeeds, nothing |
| IndexPublication.JSONIndexWriter.AppendRecord | internal/index/writer.go:105-128 | succeeds exactly if the writer is recording, the record encodes and no operation fails: the record with its separator is appended to its own temporary file |
| IndexPublication.JSONIndexWriter.Prepare | internal/index/writer.go:130-174 | succeeds exactly if started and prepared, or open and no operation fails: the text of its own temporary file is completed; no final path changes |
| IndexPublication.JSONIndexWriter.Commit | internal/index/writer.go:176-198 | succeeds exactly if the temporary file is there and no operation fails; the directory and the backup name in each outcome: swapped, unchanged, or the old file moved away |
| IndexPublication.JSONIndexWriter.Complete | internal/index/writer.go:200-216 | succeeds exactly if committed and no operation fails: removes exactly the backup; an error leaves the directory as it was |
| IndexPublication.JSONIndexWriter.Close | internal/index/writer.go:228-257 | a writer that is not completed takes its changes back, unless a rename or removal fails |
| IndexPublication.RestoreStagedPath | internal/index/writer.go:305-313 | a backup that is there comes back over the path; one that is not is no error |
| IndexPublication.JSONIndexWriter.RollBack | internal/index/writer.go:237-250 | the layer is peeled off; with its files there it is unless an operation fails |
| IndexPublication.JoinedIsJoin | internal/index/writer.go:105-128 | the array written record by record is the records joined by commas, one on each line |
| IndexPublication.NoneFailsIff | internal/index/writer.go:48-257 | no operation fails exactly if the list of failures holds none |
| IndexPublication.PeelUndoesLayer | internal/index/writer.go:228-257 | taking a writer's layer off gives back the directory below it |
| IndexPublication.CommitOnStack | internal/index/writer.go:176-198 | publishing one writer under the pending files of the later ones replaces exactly its layer |
| IndexPublication.CompleteOnStack | internal/index/writer.go:200-216 | removing one backup replaces exactly one layer, whatever lies above it |
| IndexPublication.DoneIsOverlay | internal/index/builder.go:256-270 | all layers completed, the directory is the old one with the index at every path |
| IndexStream.RoundTrip | internal/index/writer.go:48-174 | written exactly for the formats xml and json; then header, records and summary are read back: the given selector, the given source but for a blank offset kind, the given namespace contexts, or the reserved context 0 if there were none |
| IndexStream.ReadAll | internal/index/stream_reader.go:62-148 | a full read succeeds exactly on the layouts of complete documents and returns their contents; the header taken first still has its value at the end |
| IndexStream.LayoutIsUnique | internal/index/stream_reader.go:195-283 | a token stream is the layout of at most one document |
| IndexStream.ScanFinds | internal/index/stream_reader.go:195-283 | what the field loops recognise is there: good fields, then the records array or the end of the object |
| IndexStream.ScanTakes | internal/index/stream_reader.go:195-283 | good fields in any order are all taken, up to the records array or the end |
| IndexStream.RecordIndexStream.GetHeader | internal/index/stream_reader.go:62-83 | a fresh copy of the normalized header that shares nothing with the stream, or an error exactly when no records array is reached |
| IndexStream.RecordIndexStream.NextRecord | internal/index/stream_reader.go:108-148 | the next record, the end with the trailing fields absorbed, or an error, by the token at hand |
| IndexStream.RecordIndexStream.FinalSummary | internal/index/stream_reader.go:88-103 | the summary exactly when the object was read to its end, had one, its count is not negative and nothing follows |
| IndexStream.RecordIndexStream.ParseUntilRecords | internal/index/stream_reader.go:195-245 | succeeds exactly if the fields lead to a records array |
| IndexStream.RecordIndexStream.ParseRemainingObjectFields | internal/index/stream_reader.go:247-283 | succeeds exactly if the fields lead to the end of the object |
| IndexStream.RecordIndexStream.DecodeFieldIntoHeader | internal/index/stream_reader.go:285-314 | takes a field exactly if it is no duplicate and decodes; a known one goes into the header |
| IndexStream.IndexHeader.Snapshot | internal/index/stream_reader.go:79-82 | a detached copy with its own namespace table |
| IndexStream.IndexHeader.DecodeContexts | internal/index/stream_reader.go:303-304 | decoding into the table may write in place into the array a shallow copy would share |
| IndexStream.WriteIndex | internal/index/writer.go:48-174 | the tokens are the layout of the written document; only a source format that is neither xml nor json is refused |
| IndexStream.WrittenReadsBack | internal/index/writer.go:71-99 | the written document is good, and its header is seen with the given selector, source and namespace contexts at the current version |
| IndexReferences.ReferencesSurvive | internal/index/builder.go:122-201 | after both passes, writing and reading back, every record's reference still leads in the header that was read to that record's declarations |
| IndexStats.Summarize | internal/index/builder.go:151-249 | count, total, smallest, largest and average are their definitions, and smallest, P50, P95, P99 and largest are in order |
| IndexStats.Running | internal/index/builder.go:151-203 | the running total, smallest and largest equal sum, minimum and maximum; 0 for no record |
| IndexStats.PercentilesInOrder | internal/index/builder.go:229-240 | for every list of sizes minimum, P50, P95, P99 and maximum are in order |
| IndexStats.PercentileGrows | internal/index/builder.go:429-450 | the rounded percentile is monotone in p |
| IndexStats.PercentileInRange | internal/index/builder.go:429-450 | it lies between the first and the last entry of a sorted list |
| IndexStats.PercentileEnds | internal/index/builder.go:429-450 | at 0 and 1 it is the first and the last entry |
| IndexStats.PercentileIsNearest | internal/index/builder.go:429-450 | the percentile is the whole number nearest to the value on the line between the two entries around its position, halves upward |
| IndexStats.PositionInRange | internal/index/builder.go:438-444 | the computed position never leaves the list |
| NamespaceTable.TwoPasses | internal/index/builder.go:122-201 | after both passes ids are 0 .. n-1 with 0 the empty context, and looking a record's reference up in the header gives its own normalized declarations, given plain ones (no '=' in a prefix, no line feed in a URI) |
| NamespaceTable.SecondPassAddsNothing | internal/index/builder.go:161-201 | over an unchanged source the second pass adds no context |
| NamespaceTable.ReferencesResolve | internal/index/builder.go:275-302 | every reference leads in the header to that record's declarations, given plain ones |
| NamespaceTable.SameReferenceIffSameContext | internal/index/namespace_context.go:28-45 | two records share a reference if and only if their normalized declarations are equal, given plain ones |
| NamespaceTable.ReferKeepsProper | internal/index/namespace_context.go:28-45 | RefFor keeps the table proper, only appends, and finds the same id again |
| NamespaceTable.NamespaceContextTable.RefFor | internal/index/namespace_context.go:28-45 | the returned id and the new table are those of the specification |
| NamespaceTable.KeysAgreeIff | internal/index/namespace_context.go:91-103 | with prefixes that hold neither '=' nor a line feed, two contexts share a key if and only if cutting their URIs at every line feed that a declaration follows gives the same declarations |
| NamespaceTable.SharedReferenceIff | internal/index/namespace_context.go:28-45 | two records share a reference if and only if their normalized declarations are cut alike |
| NamespaceTable.KeyIsInjective | internal/index/namespace_context.go:91-103 | without '=' in prefixes and line feeds in URIs the key is injective |
| NamespaceTable.KeysCollide | internal/index/namespace_context.go:91-103 | any two declarations in normal form share their key with one declaration in normal form whose URI holds a line feed |
| NamespaceTable.PrefixCollides | internal/index/namespace_context.go:91-103 | a prefix with an equals sign shares its key with the split at that sign |
| NamespaceTable.NormalHolds | internal/docnode/xml/declarations.go:17-40 | the normal form is sorted and holds for each prefix exactly its last persisted declaration |
| NamespaceTable.NormalIsLast | internal/docnode/xml/declarations.go:17-40 | a declaration is kept exactly if its prefix is neither xml nor xmlns and its URI is that of the prefix's last declaration with one, both trimmed |
| NamespaceTable.NormalFormStays | internal/index/namespace_context.go:65-71 | normalizing a stored context again changes nothing |
| VerifyJson.Verify | internal/index/verify_json.go:15-112 | valid exactly when size, hash, selector name, every record field, every record hash and the declared count equal a fresh scan; at most one step past the shorter sequence |
| VerifyJson.Lockstep | internal/index/verify_json.go:60-111 | the loop's verdict is that of the two whole sequences, within one step of the shorter |
| VerifyJson.Build | internal/index/builder_json.go:17-174 | succeeds exactly if the selector parses, the scan ends, every range lies in the source and the second hash is the first; the index then has one record for each found |
| VerifyJson.ScanRecords | internal/index/builder_json.go:80-118 | one metadata record with its hash for each scanned one, or an error exactly on a failed scan or a bad range |
| VerifyJson.BuiltVerifies | internal/index/verify_json.go:92-99 | a built index describes the bytes it was built from: the scanner names every record by the parsed selector, whose name is never empty |
| VerifyJson.BuildAndVerify | internal/index/builder_json.go:17-174 | built exactly if the selector parses and every record found lies in the source; then written, read back through the stream and verified against the same bytes: always valid |
| VerifyJson.ParsedIsStable | internal/extract/streaming/selector.go:18-39 | the stored selector parses to the selector it came from |
| VerifyJson.SelectorsAre | internal/extract/streaming/selector.go:18-39 | a selector parses exactly if, trimmed, it is a local name or two slashes and a local name, with no special character |
| VerifyJson.NamelessDescribes | internal/index/verify_json.go:60-111 | an index that leaves the record names out describes the bytes as well |
| VerifyJson.BuiltIs | internal/index/builder_json.go:17-174 | the header and every record of a built index in terms of the bytes and the walk over them, and when it is built |
| Emitter.RetainedStreamIsWhole | internal/processrun/emitter.go:288-331 | over every interleaving the stream is lines numbered from 0 that start with "started" and hold at most one terminal event at the end; an owned stream that is retained has no partial line unless its removal failed |
| Emitter.NothingAfterTerminal | internal/processrun/emitter.go:416-435 | once a terminal line is written the stream never changes |
| Emitter.WithholdFiresOnceAfterRemoval | internal/processrun/emitter.go:494-524 | the callback runs at most once, only after the removal was tried, and exactly then once no one is in the gap; it runs with the file still there exactly if the removal failed |
| Emitter.FailedRemovalRetainsPartialLine | internal/processrun/emitter.go:504-508 | a removal that fails retains a partial line and the owner is told all the same |
| Emitter.ClosedIsFinal | internal/processrun/emitter.go:384-414 | after Close has returned every call is ignored |
| Emitter.CleanEndIsRetained | internal/processrun/emitter.go:384-435 | a terminal event and a clean Close retain the stream, ended by a line with the identifiers of the valid publish calls made before it, trimmed, each once, in order of first call |
| Emitter.ArtifactsArePublished | internal/processrun/emitter.go:333-353 | in every run of an emitter at work the recorded artifacts are the identifiers of its valid publish calls, trimmed, each once, in order of first call |
| Emitter.FirstsHold | internal/processrun/emitter.go:342-352 | first occurrences: no identifier twice, none lost, none added, order kept |
| Emitter.CallsWrite | internal/processrun/emitter.go:288-331 | an accepted call with a whole write appends one line of its kind with the next number, and Started the first |
| Emitter.FailedWriteEnds | internal/processrun/emitter.go:453-509 | in every run a write that is not whole disables the emitter and removes an owned stream, if the removal succeeds; a call that is not accepted changes nothing |
| Emitter.CloseEnds | internal/processrun/emitter.go:384-414 | in every run Close ends an open emitter; the stream stays as it is if it could be flushed or is not owned, and an owned one is removed otherwise |
| Emitter.StepKeepsInv | internal/processrun/emitter.go:288-524 | every critical section, callback and relock keeps the invariant |
| Emitter.StepAppends | internal/processrun/emitter.go:453-490 | no step takes back or changes a written line |
| Emitter.FileEmitter.WriteLocked | internal/processrun/emitter.go:453-490 | the fields and the stream after a write are those of the step |
| Emitter.FileEmitter.DisableLocked | internal/processrun/emitter.go:494-509 | disabling, removal and the way into the gap are those of the step |
| Emitter.FileEmitter.Close | internal/processrun/emitter.go:384-414 | Close, also when it stops in the gap, is the step |
| Emitter.FileEmitter.TerminalLocked | internal/processrun/emitter.go:416-435 | a terminal call is the step |
| Emitter.FileEmitter.ArtifactPublished | internal/processrun/emitter.go:333-353 | the fields after the call are those of the step: a valid reference not seen before is added, trimmed |
| Staging.StagingIsBounded | internal/uriio/staging_budget.go:70-117 | over every interleaving used bytes and files equal the outstanding reservations and stay, with the peaks, within the caps |
| Staging.ClampsNeverFire | internal/uriio/staging_budget.go:120-138 | Release subtracts exactly what is there |
| Staging.EachAdmissionIsReleasedOnce | internal/uriio/session.go:277-344 | an acquisition that is over gave its reservation back exactly once; one whose cleanup failed never does |
| Staging.StatisticsAreExact | internal/uriio/staging_budget.go:100-150 | acquired counts and cleanup failures are exact, and admission is blocked exactly after a failed cleanup |
| Staging.BlockedAdmitsNothing | internal/uriio/staging_budget.go:141-150 | after a noted cleanup failure no admission succeeds in any later run |
| Staging.WaitsOnlyForOthers | internal/uriio/staging_budget.go:93-117 | Admit waits only while some other acquisition holds a reservation |
| Staging.AdmittedIsAllowed | internal/uriio/staging_budget.go:74-82 | in every run whatever was admitted is within the limit for one object and within the byte cap |
| Staging.CancelledIsNotAdmitted | internal/uriio/staging_budget.go:93-99 | in every run an acquisition whose context was cancelled before each of its turns is never admitted |
| Staging.TurnAdmitsIff | internal/uriio/staging_budget.go:70-117 | in every reachable state a turn admits exactly if it is not cancelled, no cleanup has failed, the object is allowed and fits beside what is outstanding; it ends the acquisition exactly in the first three cases |
| Staging.LeakNeedsFailedRemoval | internal/uriio/session.go:312-324 | in every run a file is leaked only by a removal that failed; otherwise an acquisition that is over has nothing on disk |
| Staging.AloneIsStaged | internal/uriio/session.go:257-344 | an allowed object fetched alone is staged with the bytes that came, and cleaning up gives everything back |
| Staging.DiskIsBounded | internal/uriio/session.go:312-344 | staged bytes stay within the reservations plus one byte for each write in flight plus leaked files; within the cap plus one byte each when removals succeed |
| Staging.FailedRemovalBreaksTheCap | internal/uriio/session.go:312-324 | a run in which a failed removal puts more bytes on disk than the cap allows |
| Staging.StepKeepsInv | internal/uriio/session.go:257-344 | every step of every acquisition keeps the accounts |
| Staging.StagingBudget.Admit | internal/uriio/staging_budget.go:70-117 | the verdict and the new counters of one turn of the loop |
| Staging.StagingBudget.Release | internal/uriio/staging_budget.go:120-138 | the new counters |
| Staging.StagingBudget.NoteCleanupFailure | internal/uriio/staging_budget.go:141-150 | counts the failure and blocks admission |
| Collector.ProfileIsDirect | internal/valueprofile/collector.go:122-173 | any history of begin, commit, discard and observations leaves exactly the state of observing the committed data directly, in any order, when no text is empty |
| Collector.CommittedIsDirect | internal/valueprofile/collector.go:122-173 | the same for all data, of everything but the shape flags |
| Collector.CappedIffTooMany | internal/valueprofile/collector.go:312-333 | a field is capped exactly when its committed data has more distinct values than the cap |
| Collector.ShapeIsDirectIff | internal/valueprofile/collector.go:504-524 | the committed shape is the direct one unless an input of only empty texts was committed after a text and all texts are uuids or all emails |
| Collector.EmptyOnlyInputSpoilsShape | internal/valueprofile/collector.go:504-524 | a uuid and then an empty text, committed separately, read freeform |
| Collector.NullCountIsMissing | internal/valueprofile/collector.go:205-219 | the count is the number of records, the null count the number in which the field is missing, nil or an empty string |
| Collector.NullIff | internal/valueprofile/collector.go:205-219 | a field is null exactly then, and otherwise counts with its text and number |
| Collector.ValueCollector.CommitInput | internal/valueprofile/collector.go:145-162 | merges every field of the stage, in any order of the fields |
| Collector.ValueCollector.ObserveData | internal/valueprofile/collector.go:192-221 | each field observes its value, staged or directly |
| Collector.ValueCollector.BeginInput | internal/valueprofile/collector.go:122-129 | opens an empty stage, dropping an open one |
| Collector.ValueCollector.BeginInputIfNeeded | internal/valueprofile/collector.go:133-142 | opens a stage only when none is open |
| Collector.ValueCollector.DiscardInput | internal/valueprofile/collector.go:166-173 | drops the stage and nothing else |
| ValueProfile.UuidIff | internal/valueprofile/collector.go:87 | uuid-shaped texts are exactly five hyphenated groups of 8, 4, 4, 4 and 12 hexadecimal digits |
| ValueProfile.EmailIff | internal/valueprofile/collector.go:88 | email-shaped texts are exactly two texts around an at sign, the second with a dot inside, without white space or a further at sign |
| ValueProfile.MergeReflects | internal/valueprofile/collector.go:223-285 | merging two states is observing both lists |
| ValueProfile.ObserveReflects | internal/valueprofile/collector.go:287-333 | observing one value adds exactly that value |
| ValueProfile.MergeFrom | internal/valueprofile/collector.go:223-285 | the result does not depend on the order of the other map |
| ValueProfile.MergeDistinct | internal/valueprofile/collector.go:272-284 | the walk stops at the cap exactly when the sum of both maps exceeds it, in any order |
| ValueProfile.OrderIsIrrelevant | internal/valueprofile/collector.go:205-221 | what a state reflects does not depend on the order of the observations |
| ValueProfile.ReflectsDetermines | internal/valueprofile/collector.go:364-426 | a state is determined by the observations it reflects |
| SinkRoute.RoutesAgree | internal/extract/extractor.go:1504-1623 | with an accepting sink and no cancellation one route succeeds exactly when the other does; on success rows, numbers and counts are equal; a sink that got less got a prefix; numbers strictly increase |
| SinkRoute.ToSink | internal/extract/extractor.go:1563-1623 | the sink has a prefix of the rows in every case and all of them on success |
| SinkRoute.Buffered | internal/extract/extractor.go:1504-1561 | succeeds exactly when no selector, node, validation or enrichment fails, with those rows and counts |
| SinkRoute.EnrichAll | internal/extract/extractor.go:1661-1680 | every record is enriched with its own number, or the first failure stops it |
| SinkRoute.NumbersIncrease | internal/extract/extractor.go:1521-1556 | row numbers are strictly increasing positions before filtering, across all selectors |
| SinkRoute.RowsAre | internal/extract/extractor.go:1521-1556 | node k has a row numbered k+1 exactly if its record is built, passes filters and validator in its uniform form, and is enriched |
| SinkRoute.FailsIff | internal/extract/extractor.go:1521-1556 | which nodes stop the extraction, in the same terms |
| RecordSignature.RoutesAgree | internal/extract/extractor.go:813-881 | both routes give the same status, first mismatching record and lowest confidence; confidences differ only with a scoring error after a passing record |
| RecordSignature.WholeDocument | internal/extract/format.go:367-401 | the loop's verdict is the declarative one |
| RecordSignature.Streaming | internal/extract/extractor.go:813-925 | on a stream of the same records, extracted without error, its verdict is the declarative one |
| RecordSignature.VerdictIsUnique | internal/extract/format.go:361-366 | a list of records has one verdict |
| InternalFields.AcceptedProjectionIsDeletion | internal/extract/extractor.go:2114-2210 | under an accepted configuration with trimmed internal names the built record is the one built with nothing internal, less the internal names, and both fail together |
| InternalFields.ProjectionIsDeletion | internal/extract/extractor.go:2114-2210 | the same for any unambiguous names, if and only if no emitted external field carries an internal name |
| InternalFields.UntrimmedNameIsShadowed | internal/extract/extractor.go:2188-2210 | an accepted configuration whose internal name begins with white space lets an external field of that name through |
| InternalFields.NoWrapperIsEmitted | internal/extract/internalfield.go:55-68 | no wrapped value is in a built record |
| InternalFields.ExpressionLeaves | internal/extract/extractor.go:2135-2166 | an expression mapping leaves its value on the external fields, everything selected and the expressions before it, wrapped if internal, and no key if it has none |
| InternalFields.SelectionLeaves | internal/extract/extractor.go:2135-2150 | an XPath mapping leaves the value selected, and no key if there is none |
| InternalFields.KeysAreOutputs | internal/extract/extractor.go:2135-2166 | every key of the mapped record is the name of a mapping |
| InternalFields.EmittedIsPlain | internal/extract/extractor.go:2168-2183 | what is emitted are the plain entries of the mapped record and of the external fields |
| InternalFields.BuildSucceeds | internal/extract/extractor.go:2135-2183 | a record is built unless a selection or an expression fails or an output is an external field's name |
| InternalFields.BuildProjectedRecord | internal/extract/extractor.go:2135-2183 | the loops, over maps in any order, compute the two-phase specification |
| InternalFields.BuildExpressionScope | internal/extract/extractor.go:2114-2129 | the scope holds every value unwrapped, over maps in any order, or a shared key is an error |
| InternalFields.StoreMappedValue | internal/extract/internalfield.go:44-53 | a missing value leaves no key, an internal one is wrapped |
| InternalFields.JoinExternal | internal/extract/extractor.go:2168-2179 | external fields join in any order, or a taken key is an error |
| InternalFields.Project | internal/extract/internalfield.go:55-68 | exactly the wrapped entries go, in any order |
| InternalFields.Validate | internal/extract/extractor.go:233-295 | accepts exactly the configurations whose internal mappings are named, scalar, unambiguous and in no reserved key |
| InternalFields.AcceptedIsUnambiguous | internal/extract/extractor.go:263-276 | acceptance makes internal names unambiguous |
| InternalFields.ReservedKeysStayClear | internal/extract/extractor.go:278-292 | schema and filter keys cannot bring an internal name back |
| CodeSpan.MdCode | cmd/sumpter/commands/inspect_markdown.go:79-97 | for every non-empty string, reading the output by the code span rule consumes all of it and returns exactly the visible form of the string |
| CodeSpan.MdVisible | cmd/sumpter/commands/inspect_markdown.go:12-45 | the escaped form, with no character left that needs escaping |
| CodeSpan.LongestRun | cmd/sumpter/commands/inspect_markdown.go:81-89 | the count is the longest run of backticks, and it occurs |
| CodeSpan.FencedParses | cmd/sumpter/commands/inspect_markdown.go:90-96 | a text between fences longer than its runs, with no backtick at its edges, is read whole |
| CodeSpan.PaddedStrips | cmd/sumpter/commands/inspect_markdown.go:91-94 | the padding is what a reader takes off |
| CodeSpan.VisibleStays | cmd/sumpter/commands/inspect_markdown.go:13-15 | a string with nothing to escape stays as it is |
| CodeSpan.EscapeReads | cmd/sumpter/commands/inspect_markdown.go:16-33 | an escape determines its character, whatever follows |
| CodeSpan.VisibleReadsBack | cmd/sumpter/commands/inspect_markdown.go:12-45 | the visible form of a string without backslashes reads back as that string |
| CodeSpan.BackslashIsAmbiguous | cmd/sumpter/commands/inspect_markdown.go:12-45 | a backslash and an n show as a line feed does |

## Left out

- SlotOwner: the three theorems take the calls of the owner to succeed; what failing calls leave is in `SlotSafety` and, in part, `SlotCleanup`.
- Slot: the events.ndjson file; claims of older releases without a token; the bound of twelve attempts, which is an unbounded retry here; chmod, sync and close of a claim, which are one step with its finishing; wall-clock values.
- Slot: inode numbers may be reused, which is an answer of the environment (`same`) and not a model of the file system; power loss is not modelled for the slot.
- SlotRecovery.LoneContenderRecovers: assumes that only dead processes wrote to the directory and that the contender's own calls succeed. `SlotCrash.CrashIsRecoveredIff` derives the first from runs.
- SlotCrash.CrashIsRecoveredIff: the contender has not owned the slot or elected a lease before, since after a failed removal it would meet its own files; in runs without failing calls this is not needed.
- SlotStuck.LostStaysLost: contenders that overlap, and calls that fail, on a slot that is already stuck.
- Slot: a sweep may be followed by abandonSetup also when a card was published, which the code does not do; the model then has more runs than the code.
- Slot: when the owner came from card.json, the extra read of claim.json before the takeover (`internal/processrun/card.go:538-544`), which ends the attempt with another error where the model reports contention and changes no file.
- Durable commit: creating missing output directories and removing them again (`ensureDirectoryDurable`, `cleanupCreatedDirectories`), the non-durable mode and the containment check of paths.
- DurableCommit.LocalAggregateCommit.Publish: shards are staged one after another and committed once, as `cmd/sumpter/commands/extract_aggregate.go` does; shard and sidecar names are distinct and neither the lock's nor the marker's.
- CommitExclusion: the residue scan is atomic and temporary names are fresh.
- Index publication: directories made by MkdirAll stay; JSON fragments are given strings; the collecting writer, which has no files.
- IndexBuild.BuildTo: the writers are new and their paths are not empty; opening and statting the source and building the header come before it. MkdirAll and CreateTemp are one operation, and so are the writes of a header.
- IndexPublication.JSONIndexWriter.Commit: a backup name never exists already and is no final path, as its process id and nanosecond clock intend.
- Index stream: values are single tokens, so JSON syntax, numbers and null for a value are not modelled; a null and an empty declaration list are the same; calls after an error are not specified.
- IndexStats: real arithmetic instead of IEEE floating point, and sizes that are not negative, as byte counts are; for a negative size Go's conversion would round toward zero.
- VerifyJson: I/O errors while reading the source; the XML verifier.
- NamespaceTable: reading a record's declarations from the scanner.
- Emitter: time, host identity, the payload of progress lines, and which reference is valid (`ArtifactRef.Validate`); the heartbeat goroutine is any caller of Heartbeat.
- Staging: the context is an answer of the environment; provider calls, retries and their back-off, and the unbounded path without a budget.
- ValueProfile: NaN, negative zero and infinities; numbers are reals. Field states are values in a map, as no two entries of the source share one.
- Value profile results (`result`, tiers, small-cell suppression) are functions of the committed state and settled by it.
- SinkRoute.RoutesAgree: the timestamp in the envelope and the text of errors; on failure the two routes may report different errors.
- RecordSignature.Streaming: logging and dispositions; the XML route, which scores nothing.
- InternalFields: XPath and expression evaluation, coercion, arrays and nested mappings; the structural rules of an internal mapping are one flag.
- CodeSpan: strings that are not valid UTF-8, and `mdText`.
- Commands, configuration and recipe loading, schema validation, S3 credentials, PII detection, run statistics and documentation viewers: user interface or thin layers over libraries.
