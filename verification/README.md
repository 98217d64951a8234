# Embyx Manager: a verified model

Dafny models of the parts of Embyx Manager that move and delete people's files, or decide what they
are called, with proofs of what those parts promise. `dafny verify dfyconfig.toml` checks everything.

Five stateful protocols carry the weight:

- **The crash-safe local move** (`Filesystem.dfy`, `LocalMove.dfy`). A file tree of names and inodes,
  a mover whose every filesystem call can fail or act and still fail, other programs that may change
  anything at any time, and a journal that recovery reads. The process can die between any two
  writes; `trace` records each such point.
- **The CloudDrive move** (`Records.dfy`, `CloudMove.dfy`). A remote that acts at once, later or
  never, or loses the connection, and a log of every MoveFile call.
- **The job queue** (`JobQueue.dfy`, `Repository.dfy`, `ApplyRun.dfy`). `JobQueue` says what each
  repository call does to the stored rows and proves what holds over every interleaving of owners;
  the methods of `Repository.MemoryRepository` are proved to be those calls. `ApplyRun` follows one
  apply job through its awaits and asks the two movers for each candidate's result.
- **The merge tasks** (`MergeTasks.dfy`, `MergeService.dfy`, `AutoMerge.dfy`). Task rows and the files
  they stand for, an invariant that means no title is ever lost, and `MergeService` as a class that
  keeps it call by call.
- **Smaller algorithms**: stream order before a concat (`StreamOrder.dfy`), the last page behind a
  sliding window of links (`ActorPages.dfy`), one spelling for video IDs and the migration to it
  (`VideoIds.dfy`), the retry schedule (`Cadence.dfy`), info hashes (`InfoHash.dfy`) and the worker
  pool for missing titles (`MissingQueue.dfy`).

Code that changes things step by step is a class whose methods are proved against a specification;
what the outside does is a value of answers (`Environment`, `Remote`, `World`, `Library`) that is
arbitrary unless a contract names a premise on it. The premises:

- `Sound` is what any outside keeps to. For the merge it is: nobody but the service deletes a title's
  parts or writes into its intake folder, the archive only files intake folders into the library,
  a whole copy in the library stays, the staging folder of a task in the swap is left alone, and a
  merge Job that reports success merged all the parts.
- `Steady` and `Smooth` are the calmer outsides of the claims that a move or merge ends well.
- `Calm` is a local tree nobody else touches. Any call may fail at any moment, or act and report a failure
  all the same; the exact conditions below are over the answers at the moments the mover asks. `Constant`
  is a calm mount that answers the same at every moment.
- `Still` is a library that answers the same throughout a round of automatic merging, though its
  directories need not be as they were scanned.

## What does not hold

Some promises turned out to have exceptions. Each is stated exactly and proved.

- Recovery can close a journal for good on a tree that is not in order: the file under both its names, or
  a name still in quarantine. While nobody else acts it does so exactly if `Environment.Strands` holds of
  the tree and the moment it starts from (`LocalMove.Mover.ReconcileCandidate`; `LocalMove.StrandsAtStage`
  spells it out for mounts that do not change). There are three ways. A process died between the journal's
  first row and the link, on a mount that refuses the no-replace rename: recovery makes the link, and the
  mount denies that link, or refuses the plain rename, for good (`LocalMove.DeathBeforeTheLink`) or a
  single time (`LocalMove.OneFailure`). A path check that fails when recovery looks closes the journal with
  `reconcile_symlink` or `path_outside_root` without a look at the tree (`LocalMove.ClosedOnAPathCheck`).
  And with a third link of the file in quarantine, recovery drops only that one.
- A first attempt closes its journal on a file under both names exactly if, all checks passing, the link was
  made and reported as failed (`LocalMove.Mover.RunMove`, `LocalMove.LinkDenied`). It stores a result that denies what
  happened exactly in that case and if the rename itself was done and reported as failed
  (`LocalMove.RenameDenied`). If instead the source's name cannot be let go, the journal stays open, and on
  a mount where nothing can be renamed it stays open, and the file under both names, through every recovery
  (`LocalMove.OpenForever`).
- A merge that dies between the move into the intake and the write that says so, and whose folder the
  archive files meanwhile, fails forever and cannot be removed, although nothing is lost
  (`MergeService.NeverLeavesSwap`).
- The swap keeps a title exactly if no foreign file of the merged name lies in the title's intake folder
  or the library has the title already: the move skips a taken name, and the staging folder is cleared all
  the same (`MergeTasks.SwapKeepsUnlessInTheWay`).
- Automatic merging checks the size of one title as it was scanned, up to a day ago, and queues the first
  title of that ID as its directory is now. A round queues a title that does not fit exactly if the title it
  settles on leads to a directory that now holds more than there is room for (`AutoMerge.UnfitExactlyIf`).
  That takes another title of the same ID (`AutoMerge.TwoDirectories`) or a directory that changed after the
  scan (`AutoMerge.GrownDirectory`), and nothing else will do (`AutoMerge.MistakenOnlyIf`); with each ID
  listed once, exactly the latter (`AutoMerge.DistinctMistakenExactlyIf`).
- Migration 13 leaves keys with digits outside ASCII or a final newline alone, which the parser would
  respell (`VideoIds.MigrationAgrees`).
- `0x` followed by 38 hex digits is taken for a hash (`InfoHash.KeysAreHexUnlessPrefixed`,
  `InfoHash.SomeArePrefixed`).
- The answer of `_recover_cloud_move` to a terminal operation is dead code (`CloudMove.CloudMover.Recover`).
- Saving a plan anew can leave a kept cloud operation that no longer matches its candidate
  (`Repository.MemoryRepository.SavePlan`, `Repository.SavingAnewCanUnfit`).

## Model

| member | source | states |
|---|---|---|
| Filesystem.AllowedIsHarmless | src/embyx_manager/fill_actor/service.py:1104-1209 | An allowed rename, link or unlink takes no inode its last name, replaces no binding, keeps every size and modification time, and leaves all names but the three of the move alone |
| Filesystem.OnlyOthersLoseFiles | src/embyx_manager/fill_actor/service.py:1104-1209 | In every run, over any stretch in which only the mover acts, the set of inodes that have a name is the same at both ends, contents included, and no foreign path changed |
| Filesystem.OurStepsNeverReplace | src/embyx_manager/fill_actor/service.py:260-281 | A name bound before and after a step of the mover is bound to the same inode: nothing existing is ever replaced |
| LocalMove.AnyRun | src/embyx_manager/fill_actor/service.py:1802-1939 | Any number of processes one after another, each with faults and interference of its own, each cut off after any write: the whole is one legal run in which every step of the mover is an allowed one on the three names of one recorded move; at every crash point a reconciled journal has its result; and no result, once stored, is ever lost or changed at a later point |
| LocalMove.OneLife | src/embyx_manager/fill_actor/service.py:1282-1315 | One process, cut off anywhere: what it leaves came about by allowed steps, each on the names of one recorded move, and no crash point lacks an earlier result |
| LocalMove.MoveThroughCrashes | src/embyx_manager/fill_actor/service.py:1802-1990 | A move that would succeed, killed after any durable write, again and again, with other moves pending: the first reconcile pass left to run ends with every begun move finished (source and quarantine gone, destination the scanned inode, MOVED stored, journal reconciled); moves not begun, and those closed earlier, may share paths and files with any of them |
| LocalMove.MovePass | src/embyx_manager/fill_actor/service.py:1802-1829 | A first attempt finishes its move, and each point it can die at leaves this move and all others recoverable |
| LocalMove.ReconcilePass | src/embyx_manager/fill_actor/service.py:1282-1315 | One pass finishes every begun move, and each point it can die at leaves all of them recoverable |
| LocalMove.RecoverableElsewhere | src/embyx_manager/fill_actor/service.py:1854-1911 | Work on one candidate cannot make another candidate, with other paths and another inode, unrecoverable |
| LocalMove.PendingKept | src/embyx_manager/fill_actor/service.py:1802-1990 | One candidate on its course keeps every recorded move finishable |
| LocalMove.CoursePending | src/embyx_manager/fill_actor/service.py:1802-1990 | So does each of its crash points |
| LocalMove.Mover.RunMove | src/embyx_manager/fill_actor/service.py:1802-1829 | The result is about this candidate; a stored one is returned and nothing touched; where a call that fails did nothing, what a first attempt stores is true of the tree it leaves, and anything but MOVED leaves the tree as it was; while nobody else acts, exactly when a stored result denies what happened, exactly when the journal is closed on a file under both names, and that it stays open where the source cannot be let go |
| LocalMove.Mover.ApplyOne | src/embyx_manager/fill_actor/service.py:1104-1153 | MOVED means the scanned file is at a destination that was free and gone from the source, and each refusal code is true of the tree, where a call that fails did nothing; while nobody else acts, exactly what an attempt on an untouched source returns and leaves, by the answers at the moments of its calls |
| LocalMove.Mover.ApplyHardlinkFallback | src/embyx_manager/fill_actor/service.py:1155-1187 | The same for mounts that refuse the no-replace flag: link, quarantine, unlink |
| LocalMove.Mover.RollbackUnexpectedLink | src/embyx_manager/fill_actor/service.py:1189-1209 | A link that caught another file is undone: STALE leaves that file under the source name alone, CONFLICT puts it back at the destination, and on FAILED it is in quarantine or nothing changed; the source name is untouched and no content is lost |
| LocalMove.Mover.RenameNoReplace | src/embyx_manager/fill_actor/service.py:260-281 | It succeeds only onto a free name |
| LocalMove.Mover.MoveToQuarantine | src/embyx_manager/fill_actor/service.py:1942-1951 | The name moves to the quarantine or nothing happens, and which of the two, by the answers at the moments of its calls |
| LocalMove.Mover.RestoreQuarantineNoReplace | src/embyx_manager/fill_actor/service.py:1953-1970 | On success the quarantined inode is at the destination and the quarantine is gone; on failure it is still quarantined; the other name is untouched either way |
| LocalMove.Mover.FinishQuarantined | src/embyx_manager/fill_actor/service.py:1913-1939 | MOVED and STALE leave no quarantined name behind and are true of the tree; FAILED leaves the quarantined name in place; both names remain exactly if all three were there |
| LocalMove.Mover.ReconcileFilesystem | src/embyx_manager/fill_actor/service.py:1854-1911 | From each recoverable state the file ends up moved; while nobody else acts, a result closes the journal on a tree that is not in order exactly if `Deserts` held before, and a path code closes it, with nothing touched, exactly if a path check fails |
| LocalMove.Mover.ReconcileCandidate | src/embyx_manager/fill_actor/service.py:1831-1852 | A stored result closes the journal unchanged; a recoverable move is finished; while nobody else acts, the journal is closed with a name left over if and only if `Strands` held of the tree and the moment before, and on a path code if and only if a path check fails; a file under both names that cannot be renamed stays so with the journal open |
| LocalMove.StrandsAtStage | src/embyx_manager/fill_actor/service.py:1854-1911 | That condition on a mount that does not change, at each stage of a move: on an untouched source the no-replace rename refused, the link made and the plain rename failing; halfway, a path check failing; never once arrived |
| LocalMove.DeathBeforeTheLink | src/embyx_manager/fill_actor/service.py:1802-1852 | Such a mount and a death before the link: recovery closes the journal with the file left under two names |
| LocalMove.OneFailure | src/embyx_manager/fill_actor/service.py:1831-1852 | The same death on a mount whose plain rename fails a single time: recovery closes the journal all the same |
| LocalMove.OpenForever | src/embyx_manager/fill_actor/service.py:1802-1852 | A first attempt on that mount, and any number of recoveries after it: both names stay and the journal stays open |
| LocalMove.LinkDenied | src/embyx_manager/fill_actor/service.py:1164-1175 | A link that is made and reported as failed: the first attempt closes the journal with the file under both names |
| LocalMove.RenameDenied | src/embyx_manager/fill_actor/service.py:1131-1140 | A rename that is done and reported as failed: the stored result denies it and the journal is closed |
| LocalMove.ClosedOnAPathCheck | src/embyx_manager/fill_actor/service.py:1864-1873 | Any of the three path checks failing closes the journal of a half-moved file and leaves the tree as it is |
| LocalMove.Mover.ReconcileMoves | src/embyx_manager/fill_actor/service.py:1282-1315 | The pass keeps stored results and, where nothing fails, closes every journal that is open with its move finished |
| LocalMove.Mover.PersistMoveCompletion | src/embyx_manager/fill_actor/service.py:1976-1990 | Only transitions the table allows are requested, and the result is stored before the journal is closed |
| LocalMove.Mover.Conclude | src/embyx_manager/fill_actor/service.py:1820-1852 | The result is stored and the journal closed together, or neither, and exactly when: not while the roots are gone unless the file was moved, and not for a result that keeps the journal open |
| Records.CloudPathsNeverStepBack | src/embyx_manager/fill_actor/persistence.py:952-992 | Along any permitted writes an operation never steps back, a terminal state stays, and one that left PREPARED never shows it again |
| CloudMove.AnyRun | src/embyx_manager/fill_actor/service.py:1410-1682 | Any sequence of processes, each dying anywhere against a remote of its own whims: MoveFile is called at most once per candidate, `cloud_move_not_submitted` means no call, no source has two open operations, terminal operations have their result and agree with it, stored results stay, and each is about the candidate it is filed under |
| CloudMove.OneProcess | src/embyx_manager/fill_actor/service.py:1410-1579 | One process, cut short after any write or call, leaves rows that keep all that and only evolves them |
| CloudMove.PutRows | src/embyx_manager/fill_actor/persistence.py:887-918 | Writing one candidate's rows cannot break another's |
| CloudMove.CountCall | src/embyx_manager/fill_actor/service.py:1410-1552 | The one MoveFile call is made only for an operation announced and never called before |
| CloudMove.SaneMeans | src/embyx_manager/fill_actor/persistence.py:845-918 | What the stored rows promise an operator, spelled out |
| CloudMove.CloudMover.RunCloudMove | src/embyx_manager/fill_actor/service.py:1410-1552 | The result is about this candidate; a stored one is returned untouched; an existing operation is only watched; one begun here has had exactly one call and is decided or under observation; without either, the preflight failed or another operation holds the source |
| CloudMove.CloudMover.Recover | src/embyx_manager/fill_actor/service.py:1554-1579 | An operation still PREPARED is failed as not submitted; no recovery ever calls MoveFile; the answer to a terminal operation cannot be reached |
| CloudMove.CloudMover.Observe | src/embyx_manager/fill_actor/service.py:1581-1682 | Each stored verdict is supported by what was just seen at both ends; a move seen through is never missed; otherwise the operation stays open |
| CloudMove.CloudMover.Conclude | src/embyx_manager/fill_actor/service.py:1597-1682 | The verdict follows from source, destination, reply, finality and the grace period alone |
| CloudMove.CloudMover.Preflight | src/embyx_manager/fill_actor/service.py:1429-1498 | No refusal means that the last two looks, right before the announcement, found the scanned file at the source and nothing at the destination |
| CloudMove.CloudMover.Complete | src/embyx_manager/fill_actor/service.py:1684-1713 | Operation and result end together and agree |
| CloudMove.CloudMover.Verify | src/embyx_manager/fill_actor/service.py:1540-1552 | After at most five looks there is a verdict or the operation is UNKNOWN |
| CloudMove.CloudMover.ReconcileMoves | src/embyx_manager/fill_actor/service.py:1282-1315 | A pass over open operations never submits |
| JobQueue.ClaimedAndEndedOnce | src/embyx_manager/fill_actor/persistence.py:593-792 | In any interleaving a job is claimed at most once and ended at most once, and never claimed after it ended |
| JobQueue.EndedIsFinal | src/embyx_manager/fill_actor/persistence.py:674-792 | An ended job keeps its row for good, except that its plan may be dropped |
| JobQueue.JobsNeverStepBack | src/embyx_manager/fill_actor/persistence.py:538-792 | No call moves a job back |
| JobQueue.StepMovesRow | src/embyx_manager/fill_actor/persistence.py:538-792 | Only a claim starts a job, and only its live owner, a plan cancel or an expired lease ends it |
| JobQueue.StepKeepsSound | src/embyx_manager/fill_actor/persistence.py:538-792 | Owner and lease are set exactly while running, and every apply record stays a proper one |
| JobQueue.RunStaysSound | src/embyx_manager/fill_actor/persistence.py:538-792 | So in every run |
| JobQueue.FormerOwnersChangeNothing | src/embyx_manager/fill_actor/persistence.py:618-719 | With clocks that do not go back, an owner that lost a job changes nothing by renewing, reporting or finishing |
| JobQueue.LostStaysLost | src/embyx_manager/fill_actor/persistence.py:593-719 | A lost job is never regained |
| JobQueue.CapHolds | src/embyx_manager/fill_actor/persistence.py:538-578 | Queued plus running jobs never exceed the cap |
| JobQueue.ApplyResultsStay | src/embyx_manager/fill_actor/persistence.py:546-591 | A stored apply result stays, on a completed job, readable after its plan is gone |
| JobQueue.IdsAreOrdered | src/embyx_manager/fill_actor/persistence.py:593-616 | The claim order is a strict total order on IDs |
| Repository.MemoryRepository.EnqueueJob | src/embyx_manager/fill_actor/persistence.py:538-544 | Queued exactly when there is room and the ID is new |
| Repository.MemoryRepository.EnqueueApplyJob | src/embyx_manager/fill_actor/persistence.py:546-578 | A repeated request gets the job it started, as it stands; a full queue or another request under the ID is refused |
| Repository.MemoryRepository.ClaimNextJob | src/embyx_manager/fill_actor/persistence.py:593-616 | The oldest queued job, and none only if nothing is queued; the claimer may act until the lease ends |
| Repository.MemoryRepository.RenewOwnedJobLease | src/embyx_manager/fill_actor/persistence.py:618-644 | Only the live owner renews |
| Repository.MemoryRepository.UpdateOwnedJobProgress | src/embyx_manager/fill_actor/persistence.py:646-672 | Only the live owner reports |
| Repository.MemoryRepository.FinishOwnedJob | src/embyx_manager/fill_actor/persistence.py:674-719 | Only the live owner finishes, and an apply result only into a proper record |
| Repository.MemoryRepository.CancelJob | src/embyx_manager/fill_actor/persistence.py:721-767 | Each outcome exactly when the stored row calls for it: cancelled, already cancelled, already ended otherwise, unknown or of another kind |
| Repository.MemoryRepository.FailExpiredJobs | src/embyx_manager/fill_actor/persistence.py:769-792 | Exactly the jobs whose lease is over are failed, and their number returned |
| Repository.OldestQueued | src/embyx_manager/fill_actor/persistence.py:593-616 | The head of the sort by creation time and ID |
| Repository.MemoryRepository.SavePlan | src/embyx_manager/fill_actor/persistence.py:440-459 | Rows of dropped candidates go and all others stay; a kept operation stops matching exactly when the new plan changes its candidate's kind or paths |
| Repository.MemoryRepository.DeletePlan | src/embyx_manager/fill_actor/persistence.py:470-492 | Removed exactly when stored and not busy (open journal, open operation, active apply job), with its own rows and no others |
| Repository.MemoryRepository.PurgeExpiredPlans | src/embyx_manager/fill_actor/persistence.py:494-519 | Exactly the plans that are past their time and not busy go, with their own rows and no others; apply jobs stay proper records |
| Repository.DropIsAStep | src/embyx_manager/fill_actor/persistence.py:860-878 | Dropping a plan keeps every apply job, and each still satisfies its record invariant |
| Repository.OthersFit | src/embyx_manager/fill_actor/persistence.py:860-878 | Operations of other plans still match their candidates |
| Repository.RetainedFit | src/embyx_manager/fill_actor/persistence.py:440-459 | When a re-saved plan leaves the kept operations matching: if and only if the new candidates fit |
| Repository.SavingAnewCanUnfit | src/embyx_manager/fill_actor/persistence.py:440-459 | A plan saved anew under another destination: its kept operation no longer matches |
| Repository.MemoryRepository.SaveMoveResult | src/embyx_manager/fill_actor/persistence.py:521-524 | Stored under the candidate the result names, exactly if the plan has it with the same video |
| Repository.MemoryRepository.GetMoveResult | src/embyx_manager/fill_actor/persistence.py:526-528 | What is read for a candidate is its stored result and about that candidate |
| Repository.MemoryRepository.SaveMoveJournal | src/embyx_manager/fill_actor/persistence.py:806-812 | Stored exactly for an existing candidate and an allowed transition |
| Repository.MemoryRepository.SaveCloudOperation | src/embyx_manager/fill_actor/persistence.py:887-918 | Stored exactly when storable; at most one open operation per source path is kept |
| Repository.MemoryRepository.FinalizeCloudMove | src/embyx_manager/fill_actor/persistence.py:845-855 | Operation and result are stored together or not at all, and exactly when all conditions hold |
| ApplyRun.AnyRun | src/embyx_manager/fill_actor/jobs.py:443-534 | However shutdowns, cancels, lost leases and failing writes interleave with the move loop and the drain, and whatever each mover meets, COMPLETED is recorded only with one result per selected candidate in selection order, and what was recorded stays |
| ApplyRun.Undisturbed | src/embyx_manager/fill_actor/jobs.py:443-484 | Undisturbed, the job is recorded as completed with the results of all its moves |
| ApplyRun.ShutdownDuringLastMove | src/embyx_manager/fill_actor/jobs.py:506-534 | A shutdown during the last move waits for it and still records every result |
| ApplyRun.Execution.Check | src/embyx_manager/fill_actor/jobs.py:453-475 | A stale claim ends the run unowned, a refusal or an exception fails it, and only otherwise the loop starts |
| ApplyRun.Execution.HeartStopped | src/embyx_manager/fill_actor/jobs.py:476-528 | A job lost or cancelled records nothing; a shutdown goes on to compare results |
| ApplyRun.Execution.RequestStop | src/embyx_manager/fill_actor/jobs.py:60-72 | The reason of highest priority is kept, and the runner is cancelled once |
| ApplyRun.Execution.MeetCancellation | src/embyx_manager/fill_actor/jobs.py:485-495 | A cancellation inside the try block starts the cleanup; inside the cleanup it is swallowed; neither records anything |
| ApplyRun.Execution.NextCandidate | src/embyx_manager/fill_actor/service.py:865-880 | The loop stops early only for a stop request |
| ApplyRun.Execution.EndMove | src/embyx_manager/fill_actor/service.py:868-880 | What the move returned is appended as it is; the caller owes that it is about the next candidate |
| ApplyRun.AskMover | src/embyx_manager/fill_actor/service.py:868-880 | Stored result, local mover or CloudDrive mover, in any surroundings: the answer is about the candidate asked for, and a stored one is returned as it is |
| ApplyRun.Execution.ReadStored | src/embyx_manager/fill_actor/jobs.py:529-534 | The cleanup completes the job exactly when its row is there and every candidate has its result |
| ApplyRun.Execution.Write | src/embyx_manager/fill_actor/jobs.py:138-175 | The verdict is written at most once and only while owned |
| MergeService.AnyRun | src/embyx_manager/merge/service.py:199-666 | Any polls, cancels, retries and new tasks, each perhaps cut short, against arbitrary answers: every title is held by all its parts, a checked merged file or the library; parts are missing only if a task of the title may have deleted them; at most one task merges; uploads are tried at most five times; a done task's title is in the library |
| MergeService.OneCall | src/embyx_manager/merge/service.py:199-666 | One call keeps the invariant and moves rows only as rows may move |
| MergeTasks.SafeHoldsEveryTitle | src/embyx_manager/merge/service.py:435-516 | The invariant means that no title is lost |
| MergeTasks.OthersKeepSafe | src/embyx_manager/merge/service.py:435-516 | Nothing others may do between two calls breaks it |
| MergeTasks.PutTask | src/embyx_manager/merge/tasks.py:177-221 | When a row may be written: it keeps answering for the parts it may have deleted, and starts merging only if nobody is |
| MergeTasks.DeleteParts | src/embyx_manager/merge/service.py:485-496 | Only a replacing task may delete parts, and only its title's |
| MergeTasks.ChangeFiles | src/embyx_manager/merge/service.py:502-514 | Moving and clearing merged files is safe while each task keeps what it relies on |
| MergeTasks.AddTask | src/embyx_manager/merge/tasks.py:94-127 | A new task is safe where the unique index takes it |
| MergeTasks.SwapFollowsCheck | src/embyx_manager/merge/service.py:435-516 | Whatever failures, retries and lost files a task went through, it is at or past the swap only after the very file it holds the size and SHA-1 of was checked |
| MergeTasks.FinishedIsFinal | src/embyx_manager/merge/tasks.py:32-36 | A done or cancelled task never changes again |
| MergeTasks.SwapKeepsUnlessInTheWay | src/embyx_manager/merge/service.py:498-511 | The move into the intake and the clearing of the staging folder keep the title if and only if no foreign file of that name was in the intake or the library has the title |
| MergeService.Journey | src/embyx_manager/merge/service.py:255-545 | With no trouble a queued title is merged, uploaded, checked, swapped and filed: its task is done with the merged file's size and SHA-1, all parts are gone and the library has it |
| MergeService.NeverLeavesSwap | src/embyx_manager/merge/service.py:485-516 | A trap: with the merged file in neither staging nor intake, a replacing task fails again after every retry and can never be cancelled, although the library has the title |
| MergeService.Service.DieBeforeTheWrite | src/embyx_manager/merge/service.py:498-516 | How it gets there: the process dies after the move into the intake, and the archive files the folder |
| MergeService.Service.Tick | src/embyx_manager/merge/service.py:199-213 | Every open task moves at most one step, at most one merge starts, finished rows stay, and without trouble the only open task goes exactly where it is due |
| MergeService.OpenTasks | src/embyx_manager/merge/tasks.py:134-140 | All open tasks, oldest first, each once |
| MergeService.OneVisit | src/embyx_manager/merge/service.py:206-213 | Stepping one row leaves the rest of the snapshot current |
| MergeService.Service.Step | src/embyx_manager/merge/service.py:215-239 | A task given up fails where it stands, a passing problem leaves its state, and without trouble the task goes exactly where it is due |
| MergeService.Service.StartMerge | src/embyx_manager/merge/service.py:255-280 | Merging starts only while nobody merges and the library has no whole copy |
| MergeService.Service.WatchMerge | src/embyx_manager/merge/service.py:282-334 | Uploading starts only for a file the Job reported during this call, with its size and SHA-1 and the attempts at zero |
| MergeService.Service.WatchUpload | src/embyx_manager/merge/service.py:338-394 | Verifying only after a copy seen finished during this call or a staged file of the merged size; queued again only when the merged file is gone; given up only after five attempts or a permanent error seen during this call |
| MergeService.Service.WatchUnlisted | src/embyx_manager/merge/service.py:363-380 | With no copy listed, a staged file of the merged size counts, and only after an attempt |
| MergeService.Service.WatchUnderway | src/embyx_manager/merge/service.py:396-412 | A restart only for an upload CloudDrive was seen to have given up on during this call, once per notice and grace period; given up only when permanent or out of attempts |
| MergeService.Service.IssueCopy | src/embyx_manager/merge/service.py:422-433 | Each accepted copy counts as one attempt, never past the fifth |
| MergeService.Service.Compare | src/embyx_manager/merge/service.py:435-458 | The staged file equals the merged one in size and SHA-1; it fails only once waiting cannot help |
| MergeService.Service.Verify | src/embyx_manager/merge/service.py:435-461 | The swap begins only with the checked file in staging and no whole copy in the library |
| MergeService.Service.ClearOriginals | src/embyx_manager/merge/service.py:485-496 | Nothing moves until no original part is listed |
| MergeService.Service.Land | src/embyx_manager/merge/service.py:498-509 | The merged file is in the intake, or the task gives up exactly when it is nowhere |
| MergeService.Service.Replace | src/embyx_manager/merge/service.py:485-516 | Archiving is reached only with the title landed; without trouble if and only if the merged file was in staging or intake |
| MergeService.Service.MoveIntoIntake | src/embyx_manager/merge/service.py:502-506 | The move skips a taken name and loses nothing |
| MergeService.Service.WatchArchive | src/embyx_manager/merge/service.py:530-559 | Done only when the intake folder is gone and so the library has the title; given up only when the two hours were over at a moment of this call |
| MergeService.Service.Cancel | src/embyx_manager/merge/service.py:563-603 | Refused for a task past the point of no return and for one failed at the swap; from archiving exactly when the library has the title |
| MergeService.Service.DiscardDuplicate | src/embyx_manager/merge/service.py:605-632 | The merged copy is dropped only once the library is seen to hold the title |
| MergeService.Service.Retry | src/embyx_manager/merge/service.py:634-666 | Only a failed task, resumed where its work still stands, attempts at zero for an upload |
| MergeService.Service.Create | src/embyx_manager/merge/tasks.py:94-127 | Created if and only if the title has no open task |
| AutoMerge.AutoMerger.Step | src/embyx_manager/merge/auto.py:112-140 | A round creates at most one row, for a title that never had one, while every open task is a failed one; the title checked fits free space minus the reserve; what is queued is the first title of that ID as its directory was read during the round, which fits too if the scan lists each ID once and its directories are unchanged; on a new scan, where answers do not change, it queues exactly the choice `Setting.IsChoice` describes |
| AutoMerge.NeverTwice | src/embyx_manager/merge/auto.py:112-187 | Over any history of rounds, retries, cancels and new tasks, automatic merging never takes a title twice |
| AutoMerge.RowsStay | src/embyx_manager/merge/tasks.py:177-221 | Rows are never dropped and keep their title |
| AutoMerge.NeverHadOne | src/embyx_manager/merge/auto.py:127-136 | Neither settled nor failed means that no row exists while all open ones failed |
| AutoMerge.TwoDirectories | src/embyx_manager/merge/auto.py:112-187 | A round on a scan with one ID in two directories queues the big title, which does not fit, because the small one does |
| AutoMerge.GrownDirectory | src/embyx_manager/merge/auto.py:112-187 | A round on a scan that lists each ID once queues a title that does not fit, because a part arrived after the scan |
| AutoMerge.UnfitExactlyIf | src/embyx_manager/merge/api.py:264-279 | A round queues a title that does not fit if and only if the title it settles on leads to a directory that now holds more than there is room for |
| AutoMerge.MistakenOnlyIf | src/embyx_manager/merge/api.py:264-279 | For that the ID has another title before the one that was checked, or its directory is no longer as it was scanned |
| AutoMerge.DistinctMistakenExactlyIf | src/embyx_manager/merge/api.py:268-279 | With each ID listed once: if and only if the directory that was checked now holds more than there is room for, and so differs from the scan |
| AutoMerge.AutoMerger.Blocked | src/embyx_manager/merge/auto.py:142-151 | A round may queue a title if and only if rounds are on, merging is available, every open task is a failed one and no failure pauses |
| AutoMerge.AutoMerger.Pick | src/embyx_manager/merge/auto.py:128-140 | The loop over the scan: on a new scan, where answers do not change, exactly the first title of the first ID that passes is queued, as its directory is now, and none only if none passes; never one refused or with a row of its own |
| AutoMerge.AutoMerger.TryQueue | src/embyx_manager/merge/auto.py:153-187 | What is queued is the first title of the checked ID, read again during the call; it was not refused in this scan, and the title checked was sized within the room |
| AutoMerge.AutoMerger.Size | src/embyx_manager/merge/auto.py:213-233 | A known size is the true total of the parts |
| AutoMerge.AutoMerger.Unlisted | src/embyx_manager/merge/auto.py:235-253 | No objection if and only if every part and no whole copy is listed |
| AutoMerge.SumIsTotal | src/embyx_manager/merge/auto.py:227-233 | The sum over one listing is the total of the parts |
| AutoMerge.FirstOfDistinct | src/embyx_manager/merge/api.py:268-273 | The lookup by ID finds the title that was checked when the IDs are distinct |
| StreamOrder.Prepare | src/embyx_manager/merge/worker.py:380-427 | Refused exactly when some part carries other streams; otherwise all concat inputs pair up index by index, each keeps its part's video and audio, and nothing is remuxed while all layouts agree |
| StreamOrder.SameLayoutSameStreams | src/embyx_manager/merge/worker.py:84-100 | Equal layouts and equal video-first partitions make equal signatures, stream by stream |
| StreamOrder.InOrderIsRemuxed | src/embyx_manager/merge/worker.py:98-100 | A part in order is already what a remux would write, nothing dropped |
| StreamOrder.CarrySame | src/embyx_manager/merge/worker.py:380-384 | The check compares video and audio kind by kind, whatever their order |
| StreamOrder.Reorder | src/embyx_manager/merge/worker.py:388-426 | After remuxing exactly the stray parts all are in video-first order |
| StreamOrder.SplitsOneWay | src/embyx_manager/merge/worker.py:94-96 | The video-first order determines both kinds |
| StreamOrder.SortedStreamsStay | src/embyx_manager/merge/worker.py:94-96 | The partition loses and repeats no stream |
| StreamOrder.RemuxedShape | src/embyx_manager/merge/worker.py:400-426 | A remuxed part has its own video and audio, video first |
| StreamOrder.ByKindIsRemuxed | src/embyx_manager/merge/worker.py:94-96 | The video-first signature is the order a remux writes |
| ActorPages.GetTotalPage | src/embyx_manager/clients/javbus.py:126-184 | At most `limit` fetches (one when it is zero); any number returned is an existing page below the limit with no new page after it; a proper site of N pages gives N if and only if N is below the limit |
| ActorPages.Scrape | src/embyx_manager/clients/javbus.py:198-221 | For every completion order the videos come in page order, each once, and a missing page is an error |
| ActorPages.ScrapeSite | src/embyx_manager/clients/javbus.py:186-221 | A proper site below the limit yields exactly its videos, each once, in page order |
| ActorPages.FirstsKeepOrder | src/embyx_manager/clients/javbus.py:221 | Videos keep the order of their first mention |
| ActorPages.Firsts | src/embyx_manager/clients/javbus.py:221 | Nothing is lost and nothing repeated |
| VideoIds.NormalizeIsIdempotent | src/embyx_manager/core/avid.py:163-174 | Normalizing twice is normalizing once |
| VideoIds.SameVideoSameSpelling | src/embyx_manager/core/avid.py:163-174 | Two catalog IDs get one spelling if and only if brand and number agree, however padded |
| VideoIds.TrimIsDecimal | src/embyx_manager/db.py:511-525 | Trimming zeros in SQL is reading and writing the number in Python |
| VideoIds.MigrationAgrees | src/embyx_manager/db.py:512-525 | Where the migration applies it agrees with the parser, and it applies to every key the parser would touch except those with a digit outside ASCII or a final newline |
| VideoIds.SomeAreOverlooked | src/embyx_manager/db.py:520 | Such keys: with any catalog brand, a number in full-width digits |
| VideoIds.KeysStayDistinct | src/embyx_manager/db.py:526-532 | No two keys become one, in whatever order rows are updated |
| VideoIds.RenamedOrBlocked | src/embyx_manager/db.py:526-532 | A renamed key is exactly the normal form; one left alone is overlooked, taken or claimed twice, and only then |
| VideoIds.MigratesOnce | src/embyx_manager/db.py:505-534 | Running the migration again renames nothing |
| VideoIds.CanonicalReads | src/embyx_manager/core/avid.py:163-174 | A canonical ID reads back as its brand and number |
| Cadence.NextResolveAt | src/embyx_manager/monitor/cadence.py:34-55 | With a positive fallback the next pass is strictly later |
| Cadence.Monotone | src/embyx_manager/monitor/cadence.py:34-55 | A later empty pass never leads to an earlier next one |
| Cadence.MeetsTheWindow | src/embyx_manager/monitor/cadence.py:45-48 | From any time ahead of the window punctual passes meet its first instant |
| Cadence.AtMost126InTheWindow | src/embyx_manager/monitor/cadence.py:49-50 | However late passes run, at most 126 fall into the window |
| Cadence.WindowTakes126 | src/embyx_manager/monitor/cadence.py:49-50 | Punctual passes from its start make exactly that many |
| Cadence.PassesAreSpread | src/embyx_manager/monitor/cadence.py:49-50 | Passes in the window are four hours apart or more |
| Cadence.TailGrows | src/embyx_manager/monitor/cadence.py:24-31 | An older release is looked at no more often |
| InfoHash.HexReads | src/embyx_manager/core/magnet.py:29-34 | Hex in any letter case reads as the upper-case hex of the hash |
| InfoHash.Base32Reads | src/embyx_manager/core/magnet.py:35-40 | Base32 in any letter case reads as the same string |
| InfoHash.HexIsInjective | src/embyx_manager/core/magnet.py:19-41 | Different hashes keep different keys |
| InfoHash.RereadsItself | src/embyx_manager/core/magnet.py:14-34 | A stored key behind any prefix that holds no mark of its own, with any parameters after it, reads as that key again |
| InfoHash.MagnetReads | src/embyx_manager/core/magnet.py:14-41 | A magnet as sites write it, `magnet:?xt=urn:btih:` and either spelling in any letter case, reads as the upper-case hex of its hash |
| InfoHash.SearchSkips | src/embyx_manager/core/magnet.py:14-26 | The search passes whatever precedes the first mark |
| InfoHash.KeysAreHexUnlessPrefixed | src/embyx_manager/core/magnet.py:29-41 | A key has 40 characters, and they are hex digits if and only if the value was not 40 characters starting with `0x` |
| InfoHash.SomeArePrefixed | src/embyx_manager/core/magnet.py:29-34 | Such a value, `0x` and zeros, is taken for a hash |
| InfoHash.SpreadOfGroup | src/embyx_manager/core/magnet.py:35-40 | Regrouping bits and spreading them again changes nothing |
| InfoHash.GroupOfSpread | src/embyx_manager/core/magnet.py:35-40 | Nor does spreading values and regrouping them |
| MissingQueue.AnyRun | src/embyx_manager/fill_actor/service.py:1014-1062 | For every schedule each title is handed on once, calls in flight never exceed the concurrency, reports count 1, 2, 3 ..., and at the end every title has its own answer in input order |
| MissingQueue.Pool.SomeoneCanGoOn | src/embyx_manager/fill_actor/service.py:1039-1061 | Until the workers are gone some worker can go on, unless other jobs hold every permit |
| MissingQueue.RunToTheEnd | src/embyx_manager/fill_actor/service.py:1014-1062 | Left alone, the pool always ends, with every title's own answer in input order |
| MissingQueue.Pool.Do | src/embyx_manager/fill_actor/service.py:1039-1058 | Every stretch of a worker's code leaves less to do |
| MissingQueue.Pool.Outcomes | src/embyx_manager/fill_actor/service.py:1061-1062 | When the workers are gone every title was handed on, reported and answered |
| MissingQueue.Pool.Enter | src/embyx_manager/fill_actor/service.py:1021-1027 | A title goes to the gateway once and with a permit |
| MissingQueue.Pool.Report | src/embyx_manager/fill_actor/service.py:1047-1058 | Each report says one more than the last |

## Left out

- LocalMove.Mover.ApplyOne: symlink, containment and parent-directory checks are answers of the environment, since what they look at is not part of the tree.
- LocalMove.MoveThroughCrashes: one filesystem and distinct quarantine names; the SHA-256 collision that would break the latter is not modelled.
- CloudMove.AnyRun: safety only, because an operation may stay UNKNOWN forever.
- ActorPages.GetTotalPage: a page after the last that repeats a page the search skipped is taken for a new one, so it is no proper site here.
- AutoMerge.AutoMerger.Step: a round is atomic with respect to other task creation, and what it queues fits only as far as `UnfitExactlyIf` says.
- AutoMerge.NeverTwice: the lookup by ID strips and upper-cases the ID, so a title whose ID ends in a blank is looked up as another title, possibly a settled one; IDs are taken as already stripped and upper-case here.
- LocalMove.Mover.ReconcileCandidate: the exact conditions are for stretches in which nobody else touches the tree; otherwise what `AnyRun` promises holds.
- MergeService.AnyRun: tasks are created between calls, not in the middle of a poll, whose snapshot would not see them anyway.
- ApplyRun.AnyRun: interleavings are sequences of await-to-await stretches; asyncio itself is taken at its documentation.
- InfoHash.RereadsItself: letters and digits are ASCII; the four other letters that case-insensitive matching lets through are not modelled.
- Writes to the database that fail are treated as the process dying there, which leaves the same rows.
- Configuration is fixed during a call, and parts of titles under different IDs are different files.
- `save_job` of the repository, which nothing calls, and its plain getters and listings.
- SQL text: each transaction is one atomic step of the memory repository; strict oldest-first order across processes is not claimed.
- Plan creation, scanning, and the extraction of video IDs from file names with regular expressions.
- ffmpeg, ffprobe, CloudDrive, Kubernetes and HTTP themselves, retries inside HTTP clients, memory and space checks of the merge worker.
- Progress wording, error texts, status views, timestamps for display, logging and redaction.
- Authentication, settings, routers and the frontend.
- The end of the calendar: instants are unbounded integers.
