# rvfs: a verified model of the offline-first cache

rvfs keeps a partial local copy of a remote file store. A cache directory and a metadata table stand between
the file system and the remote: files are downloaded on demand by several goroutines per file, edits are
uploaded and remote changes pulled in cycles, conflicts are settled by one of four strategies, and a background
evictor keeps the cache small. This project models that behaviour in Dafny 4.11 and proves what it keeps.
`dafny verify dfyconfig.toml` checks everything.

## How the model is built

- `Ranges` (`RangeSet.dfy`): the merging interval set, as a class, over its byte-set view.
- `Streaming`: the retry loop over HTTP range requests (RFC 9110, sections 14.1.2, 14.2 and 15.3.7).
- `Downloads` (`Download.dfy`): everything that happens to one path, as a transition system. A step is one critical
  section of the code, one write to the cache file or one statement on the row, so a run is any interleaving of
  openers, readers, download goroutines, checkpoint flushers, `finish`, `cancel` and crashes. `WriteAt` and the locked
  `Add` are separate steps. `DownloadObject` holds the same critical sections as methods of a class, each proved equal
  to its step.
- `DownloadInvariant`, `DownloadSafety`, `DownloadSerial`, `DownloadLife`, `DownloadWait`,
  `DownloadLimit`, `DownloadHang`, `DownloadRow`, `DownloadLag`, `DownloadEffects`: the theorems about runs.
- `Sync`, `SyncPull`, `SyncIdempotence`, `SyncSaved`, `SyncCycle`, `SyncTurns`, `SyncConvergence`, `SyncQueue`,
  `SyncUploads`, `SyncRows`: the table of rows, the remote tree, resolver, upload, pending deletes and the recursive pull. The tree walk is proved equal,
  level by level, to a function of one path, and the cycle to a turn of one path, from which the theorems follow.
  `SyncObjects` holds the store, resolver and engine as classes that are proved against these functions.
- `Conflicts`: `rvfs resolve` and the bookkeeping of conflict records under interleaved writes.
- `Pins`, `Eviction`, `Connectivity`, `Foreground`: pin compaction, the LRU evictor, the connectivity machine with the
  engine that listens to it, and the foreground preemption of prefetches.

Paths are sequences of names; `Paths.PrefixIsUnder` shows that the prefix tests on strings mean the same. A clock
reading, a timeout, a transfer's success and the order of a listing are parameters or free choices of the run.

## What the model shows about the code

Most promises hold as stated. Where one does not, the code is kept as it is and the exact condition is proved.

1. `Start` truncates the cache file between two looks at the manager's map. Two first opens that overlap can wipe
   downloaded bytes (`DownloadLife.TruncationRace`). Claims are on disk throughout a run if and only if no truncation
   hit a claimed byte (`DownloadSafety.ClaimsOnDisk`); opens that do not overlap are enough (`DownloadSerial.SerialSafety`).
2. A reader that finds a registered Download before `Start` has launched it can bring it to its end first; `finish`
   is then scheduled twice (`DownloadLife.FinishTwice`). The life cycle is kept exactly by the runs that
   `DownloadLife.LifeCycleExact` names. The comment in `Start` claims that holding the lock during the launch is enough.
3. Pull evicts a clean row again without clearing its ranges. The next `Start` trusts them on a file of zeros
   (`DownloadSerial.StartAfterReEvict`, `DownloadSerial.StaleFileTurnsClean`), and the evictor counts bytes that are not
   there (`Eviction.PhantomBytes`).
4. `hasGoroutineNear` also counts goroutines that have passed the wanted offset. With a read-ahead limit a read can
   wait for ever (`DownloadHang.ReadHangs`), at once or after the goroutines have streamed up to the limit.
   `DownloadLimit.GrantedExactly` decides before the call whether a read is granted on no run or on every run;
   `DownloadLimit.HangsExactly` tells the hangs that are there as soon as the call sleeps.
5. The stream loop accepts status 200, whose body starts at byte 0, on a resumed request (`Streaming.WholeReplyFits`);
   it then reports success on wrong bytes (`Streaming.WholeReplyCorrupts`).
6. Strategy both promises to keep both versions, but the same pull drops the saved copy unless its name is that of a
   listed file (`SyncSaved.CopySurvives` says exactly when it lives). A local edit that bears the name is overwritten,
   or loses its file when the download of the copy fails (`SyncSaved.LocalEditsSurvive`, `SyncSaved.EditDropped`); and a
   second pull of the same tree can change the cache (`SyncIdempotence.PullIdempotent`, an exact condition).
7. A file deleted and created again between two cycles is uploaded and then deleted, in the first cycle or in a later
   one, and its local copy goes too. `SyncConvergence.SettledExactly` says for every dirty file on its own when it
   arrives and stays, `SyncConvergence.UploadThenDelete` what is lost, `SyncConvergence.FixedExactly` from when on nothing
   changes. Ten deletes that the remote always refuses block all operations behind them (`SyncQueue.DrainsExactly`).
8. Remote-wins and `rvfs resolve --keep remote` overwrite the local file before the download has succeeded
   (`SyncPull.RemoteWinsLoses`, `Conflicts.LocalBytesLost`). `rvfs resolve --keep both` saves the remote version, but the
   pull of the next cycle drops the copy as a file deleted remotely (`Conflicts.KeptCopyLives`, the exact condition).
   When strategy both cannot download a copy, a clean file of that name loses its cache file (`SyncRows.PullBacked`,
   `SyncRows.PassBacked`, both exact).
9. The evictor is documented to take clean files only; an edited file whose row still names ranges is taken as well
   (`Eviction.EditEvicted`).
10. A resolution on the command line that meets the resolver leaves a row in conflict without a record
    (`Conflicts.ResolveRace`).
11. The subscriber channel drops a state when it is full. The engine can stay paused beside an online monitor
    (`Connectivity.PausedOnline`, `Connectivity.RecoversExactly`).
12. The listing of pins shows a pinned directory even when it holds unpinned files (`Pins.ReadAsDirectories`,
    `Pins.UnpinnedBelowShown`).

The documentation of the resolver says that the caller has already stored the new remote time in the entry; the upload
path does not. The model follows the code: the first cycle then only re-queues the file, and the pull records the time.

## Model

| member | source | states |
|---|---|---|
| Ranges.CanonicalUnique | internal/download/rangeset.go:15-20 | a sorted, separated list is determined by the bytes it covers |
| Ranges.RangeSet.Add | internal/download/rangeset.go:27-70 | the one-pass loop keeps the list canonical, adds exactly the chunk's bytes and yields the list of the recursive reference |
| Ranges.AddedView | internal/download/rangeset.go:29-70 | merging keeps canonicity and its view is the union |
| Ranges.AddConfluence | internal/download/rangeset.go:27-70 | any two sequences of chunks with the same bytes end in the identical list |
| Ranges.AddOrderIrrelevant | internal/download/rangeset.go:27-70 | the order in which goroutines add the same chunks leaves no trace |
| Ranges.RangeSet.Contains | internal/download/rangeset.go:72-91 | the binary search answers exactly whether every byte of the range is covered |
| Ranges.RangeSet.IsComplete | internal/download/rangeset.go:93-99 | true exactly when [0, total) is covered |
| Ranges.RangeSet.Gaps | internal/download/rangeset.go:101-128 | the canonical complement within [0, total) |
| Ranges.Conservation | internal/download/rangeset.go:101-128 | covered bytes and gap bytes add up to the file size |
| Ranges.FirstGapSuffices | internal/download/manager.go:228-240 | no gaps exactly when complete; one stream from the first gap to the end completes the set |
| Ranges.CoveredBytes | internal/download/manager.go:367-383 | the sum of clamped lengths is the number of covered bytes of [0, total) |
| Ranges.RangeSet.Marshal | internal/download/rangeset.go:148-158 | the pairs decode to the same list |
| Ranges.PairsRoundTrip | internal/download/rangeset.go:148-175 | encoding and decoding are inverse in both directions |
| Streaming.StreamWithRetry | internal/remote/gdrive/gdrive.go:559-643 | the bytes written are those of the replies in order, and from an honest server the file's from the offset on; success delivers the whole length; each request resumes at the first missing byte and keeps the last one; it terminates and gives up only when cancelled, interrupted while waiting, refused or out of retries |
| Streaming.WholeReplyFits | internal/remote/gdrive/gdrive.go:606-624 | a 200 body is right for every file if and only if the request starts at 0 and asks for at least that many bytes |
| Streaming.WholeReplyCorrupts | internal/remote/gdrive/gdrive.go:606-628 | a run of the loop in which a resumed request is answered with 200: it succeeds and has written the first byte twice |
| Paths.PrefixIsUnder | internal/cache/db.go:295-327 | the prefix "dir/" of a path string means lying below the directory |
| Paths.UnderComparable | internal/cli/pin.go:309-322 | two ancestors of a path are ordered |
| DownloadInvariant.StepSound | internal/download/manager.go:473-841 | every critical section keeps: done implies complete or error, a sleeping reader has a live goroutine or nothing left to wait for, snapshots and jobs hold only recorded bytes |
| DownloadInvariant.EnterSound | internal/download/manager.go:473-546 | the entry of a wait keeps the invariant: no lost wake-up |
| DownloadInvariant.RecheckSound | internal/download/manager.go:535-545 | so does each round of the wait loop, which respawns a goroutine when none is left |
| DownloadInvariant.CommitSound | internal/download/manager.go:675-693 | so does the section that records a chunk |
| DownloadInvariant.ExitSound | internal/download/manager.go:595-618 | so does the deferred section, which alone may set done |
| DownloadInvariant.RequestCoalesced | internal/download/manager.go:801-816 | a checkpoint request starts the only flusher or replaces the pending snapshot |
| DownloadInvariant.WriteDoneCoalesced | internal/download/manager.go:818-829 | stored snapshots increase by inclusion, failures included |
| DownloadInvariant.NextFlushCoalesced | internal/download/manager.go:818-841 | the flusher goes on with the newest snapshot and stops only when the last one stored is the last one requested |
| DownloadInvariant.LaunchSound | internal/download/manager.go:225-240 | the launch finishes at once or streams from the first hole |
| DownloadSafety.StepWorldSound | internal/download/manager.go:167-960 | every step of every process keeps row, openers and Downloads well formed |
| DownloadSafety.StepFaithful | internal/download/manager.go:594-794 | one step keeps all claimed bytes on disk if and only if it is not a truncation of claimed bytes |
| DownloadSafety.ClaimsOnDisk | internal/download/manager.go:181-240 | crash-safe resume: along every run, crashes included, claims are on disk throughout if and only if every truncation was harmless |
| DownloadSafety.FirstOpenHarmless | internal/cache/cache.go:588-612 | a truncating open of an unclaimed file is harmless |
| DownloadSafety.ReadIsRemote | internal/fuse/node.go:595-616 | read refinement: after a nil wait the file read equals a direct read of the remote, in whatever later state it happens |
| DownloadSafety.CleanFileIsRemote | internal/download/manager.go:888-917 | in every state of a run, right after a crash too, a clean row describes a cache file equal to the remote one |
| DownloadSafety.RowStepSound | internal/cache/db.go:684-697 | checkpoint, finish and cancel write only recorded ranges, and a clean row only with a complete set |
| DownloadRow.StoreStep | internal/cache/db.go:684-697 | a checkpoint that succeeds while the row is downloading, the end of finish and the end of cancel leave exactly their snapshot in the row; no other step changes its ranges |
| DownloadRow.StateStep | internal/download/manager.go:223-223 | a successful Start sets downloading, finish clean, cancel evicted; no other step changes the state |
| DownloadRow.LastStoreStays | internal/cache/db.go:684-697 | along every run, crashes included, the row names exactly the bytes of the snapshot stored last |
| DownloadRow.JobStores | internal/download/manager.go:888-945 | whatever happens between its locked section and its write, cancel stores exactly what the set held in that section and the row is evicted; finish stores what it held when it began and the row is clean |
| DownloadRow.FirstDownloadResumes | internal/download/manager.go:200-220 | whatever a new process does before, the first Download it registers starts from exactly the bytes that the row names |
| DownloadRow.StartResumes | internal/download/manager.go:181-220 | a single Start gets there, and keeps a cache file of the right size |
| DownloadRow.ProgressSurvives | internal/download/manager.go:200-206 | so what was stored last, by a checkpoint, finish or cancel, is exactly what the next process resumes after a crash |
| DownloadLag.CommitStores | internal/download/manager.go:675-690 | when the threshold or the interval is reached and no checkpoint is under way, the flusher stores exactly what the set held in the section of that commit |
| DownloadLag.CrashCosts | internal/download/manager.go:685-690 | while the download goes on, whenever no flusher is at work, fewer than 5 MiB of the recorded bytes are missing from the row |
| DownloadSerial.SerialHarmless | internal/download/manager.go:181-222 | if `Start` calls do not overlap, every truncation is harmless |
| DownloadSerial.SerialSafety | internal/download/manager.go:167-247 | then reads are refined, clean rows are true and row claims are on disk at every crash point |
| DownloadSerial.StartAfterReEvict | internal/sync/engine.go:467-480 | after a re-evict the next Start claims true bytes if and only if every kept range is zero in the new content |
| DownloadSerial.StaleFileTurnsClean | internal/download/manager.go:200-206 | if the kept ranges cover the new file, a run ends with a clean row over zeros |
| DownloadLife.StepLife | internal/download/manager.go:594-618 | done flips once and schedules one finish or clean-up; after done no goroutine exists or starts |
| DownloadLife.ErrorOnlyShrinks | internal/download/manager.go:502-543 | once the error is set, no step but a launch adds a goroutine |
| DownloadLife.LaunchLife | internal/download/manager.go:225-240 | the launch keeps the life cycle if and only if nobody disturbed the Download before it |
| DownloadLife.LaunchAfterError | internal/download/manager.go:225-240 | the launch spawns after an error exactly when the set is incomplete |
| DownloadLife.LaunchMeetsError | internal/download/manager.go:208-240 | a run in which a launch meets an error and starts a goroutine all the same |
| DownloadLife.LifeCycleExact | internal/download/manager.go:208-240 | over whole runs the life cycle holds in all states if and only if every launch found its Download undisturbed |
| DownloadLife.TerminalRow | internal/cache/db.go:684-697 | a clean or evicted row changes only through a new Start, a finish or a cancel, never through a late checkpoint |
| DownloadLife.TruncationRace | internal/cache/cache.go:594-612 | a run of two overlapping first opens that grants a wrong byte |
| DownloadLife.FinishTwice | internal/download/manager.go:220-240 | a run that schedules finish twice for one Download |
| DownloadEffects.CancelReleases | internal/download/manager.go:923-932 | the locked section of cancel cancels every goroutine, and every waiter then returns the error |
| DownloadEffects.CancelRuns | internal/download/manager.go:385-404 | Cancel takes the path out of the map at once, and undisturbed ends with the row evicted and exactly the bytes of the set in it |
| DownloadEffects.FaultReported | internal/download/manager.go:664-673 | a write that fails, or a stream that breaks without a cancel, is recorded as the error by the goroutine's next step, and every waiter then returns it |
| DownloadEffects.StoppedWritesNothing | internal/download/manager.go:644-652 | a goroutine that was told to quit, reached the end, idled too long, yielded for a removed download or was throttled when the download ended writes nothing more on any run |
| DownloadEffects.LeavesForAReason | internal/download/manager.go:644-770 | a goroutine of a running download leaves in the middle of its stream only if it was cancelled, has nothing to stream, idled at the limit, prefetches for a path that left the map, or is secondary and the next chunk is there |
| DownloadEffects.LastExit | internal/download/manager.go:594-618 | the last goroutine's exit brings the download to its end: clean if complete, evicted with what is there after an error, otherwise it wakes the waiters |
| DownloadEffects.FinishRuns | internal/download/manager.go:888-917 | finish, undisturbed, leaves a clean row with the bytes of the set and the path out of the map |
| DownloadEffects.CleanupRuns | internal/download/manager.go:605-612 | the clean-up after an error takes the path out of the map and leaves an evicted row with the bytes that are there |
| DownloadEffects.LaunchAtFirstHole | internal/download/manager.go:225-240 | a launch with a byte missing starts one sequential goroutine at the least missing byte, and changes nothing else |
| DownloadEffects.HintHelps | internal/download/manager.go:267-292 | after a hint its chunk is cached or a goroutine is near it, unless the download is over; at most one secondary goroutine is new |
| DownloadEffects.EnterCancelsFar | internal/download/manager.go:564-578 | a reader that waits leaves no secondary goroutine running that is more than the window behind; those near it go on |
| DownloadEffects.HandlesCounted | internal/download/manager.go:167-220 | along every run the open count is the handles given out less those released |
| DownloadEffects.JoinEnds | internal/download/manager.go:169-219 | a Start that finds the path registered takes its one handle and is over, without touching file or row |
| DownloadWait.ServingStep | internal/download/manager.go:512-545 | without faults, and whatever the read-ahead limit, every step that serves the reader lowers the measure or grants the read, and a goroutine that will reach the end of the range stays one or has covered it |
| DownloadWait.ServingStepPossible | internal/download/manager.go:512-545 | while the reader waits, some serving step is possible, unless the reader sleeps and every goroutine is throttled |
| DownloadWait.BystanderStep | internal/download/manager.go:801-841 | steps of flushers, jobs, hints, openers and other Downloads keep the wait, and raise the measure at most by the goroutine a hint adds |
| DownloadWait.WaitEnds | internal/download/manager.go:536-545 | among any number of such steps, whatever the limit, the wait takes at most the measure's number of serving steps, plus what hints and prefetch requests add, and can only end granted |
| DownloadWait.WaitGranted | internal/download/manager.go:512-545 | a run of serving and other such steps after which no serving step is possible has granted the read, or hangs |
| DownloadWait.StuckExactly | internal/download/manager.go:551-562 | nothing serves a waiter any more if and only if it sleeps, no idle timeout is set and every goroutine is throttled |
| DownloadLimit.GrantedExactly | internal/download/manager.go:473-562 | before the call of a sole reader that must wait: no run grants the read (without a hint or prefetch request) if and only if a limit is set without idle timeout and prefetch, a goroutine counts as near, the file goes on beyond the limit counted from the later of the last and this read's end, some goroutine stays until it stops there, and a missing byte of the range lies before the start of all that have not left; otherwise every run that cannot go on has granted it |
| DownloadLimit.DoomedRun | internal/download/manager.go:536-562 | over runs of any length: while a missing byte lies before all goroutines and one of them will stop at the limit, the read is never granted |
| DownloadLimit.SafeGranted | internal/download/manager.go:536-562 | without a limit within the file, or with a goroutine on its way through the range, or with none that could be throttled, every run that cannot go on has granted the read |
| DownloadLimit.SafeGrantingRun | internal/download/manager.go:536-562 | and such a run exists |
| DownloadLimit.EnterDecides | internal/download/manager.go:473-546 | the call leads into one of these two kinds of wait, and which one is read off the state before it |
| DownloadLimit.HangsExactly | internal/download/manager.go:473-562 | right after the call of the only reader of a Download without faults, when it must wait, nothing can serve it if and only if some goroutine is near its offset and every goroutine already pauses further ahead of the reader than the read-ahead limit, with no idle timeout and no prefetch |
| DownloadLimit.HangStays | internal/download/manager.go:730-750 | no flusher, opener, other Download or job ends the hang, but the locked section of a cancel, which sets the error; a hint or a promotion may |
| DownloadHang.ReadHangs | internal/download/manager.go:551-562 | a run from a process start: a reader seeks forward, the stream passes the window, and a read just before its start hangs and is granted on no run that follows |
| DownloadHang.NearFar | internal/download/manager.go:551-562 | that read is doomed wherever the stream is on its way to the limit, also while nothing is throttled yet |
| DownloadObject.DownloadState.constructor | internal/download/manager.go:187-206 | a new Download holds the resumed ranges and nothing else |
| DownloadObject.DownloadState.WaitForRange | internal/download/manager.go:473-546 | the method computes the entry step of the transition system and its outcome |
| DownloadObject.DownloadState.WaitRound | internal/download/manager.go:535-545 | one round of the wait loop is the re-check step |
| DownloadObject.DownloadState.HasGoroutineNear | internal/download/manager.go:548-562 | the loop answers whether some goroutine is within the window on either side |
| DownloadObject.DownloadState.CancelFarBehindOf | internal/download/manager.go:564-578 | cancels exactly the non-sequential goroutines more than the window behind |
| DownloadObject.DownloadState.Redirect | internal/download/manager.go:512-530 | respawns, redirects or adds a goroutine as the step does |
| DownloadObject.DownloadState.HintNext | internal/download/manager.go:267-292 | the hint step |
| DownloadObject.DownloadState.PersistRanges | internal/download/manager.go:801-816 | the checkpoint request of the step function |
| DownloadObject.DownloadState.FlushSection | internal/download/manager.go:818-841 | the flusher's locked section, with the snapshot it goes on with |
| DownloadObject.DownloadState.Commit | internal/download/manager.go:675-698 | the section after a chunk reached the file |
| DownloadObject.DownloadState.Exit | internal/download/manager.go:595-618 | the deferred section of a goroutine |
| DownloadObject.DownloadState.CancelLocked | internal/download/manager.go:923-932 | the locked section of cancel, with the snapshot it persists |
| DownloadObject.DownloadState.LaunchDownload | internal/download/manager.go:225-240 | the launch step, with the first gap as start |
| DownloadObject.FirstGapIsFirstHole | internal/download/manager.go:229-232 | the first gap starts at the least uncovered byte |
| Sync.EntryEffect | internal/sync/engine.go:433-500 | one listed file changes its own path as the pointwise pull says and, when strategy both meets an edit, the saved copy; no other path |
| Sync.LevelEffect | internal/sync/engine.go:422-515 | on one directory level a path whose cell no saved copy can change becomes what the pointwise pull says |
| SyncPull.PullDirWalks | internal/sync/engine.go:422-528 | the recursive walk pulls every directory below once, each level from the cache as it was before the walk, and touches nothing else |
| SyncPull.PullByLevels | internal/sync/engine.go:418-528 | the whole pull, for every cache, strategy and tree, is the pull of each path's own directory level |
| SyncPull.PullIsPointwise | internal/sync/engine.go:418-528 | a path that no saved copy can change is computed from its own row, file, record and remote node |
| SyncPull.PullOrderIrrelevant | internal/sync/engine.go:422-528 | the order of the listings does not matter when no saved copy's name is in use |
| SyncIdempotence.PullIdempotent | internal/sync/engine.go:418-528 | a second pull of the same tree changes no row, record or file, unless, under both, a listed file bears the name of the copy saved for a later conflict of its directory and is newer than it: an exact condition |
| SyncIdempotence.OutdatedExactly | internal/sync/conflict.go:125-159 | after one level no edit is unresolved, and a listed path is left behind its node exactly by such a clash |
| SyncIdempotence.SidecarInjective | internal/sync/conflict.go:125-132 | two conflicts never save to one name |
| SyncIdempotence.SidecarTimes | internal/sync/conflict.go:125-132 | nor do the copies of one file at different remote times |
| SyncPull.RemoteWinsLoses | internal/sync/conflict.go:83-111 | under remote-wins the local bytes survive if and only if the remote is not newer or brings the same bytes |
| SyncPull.CollidingSidecar | internal/sync/conflict.go:125-159 | a concrete listing: a listed file with a saved copy's name breaks idempotence |
| SyncSaved.PullOwn | internal/sync/engine.go:418-528 | a path to which no copy is saved is computed from its own row, file, record and remote node, whatever the strategy |
| SyncSaved.CopySurvives | internal/sync/conflict.go:113-165 | after the pull a saved copy is there, row and bytes, if and only if its name is a listed one whose turn came before or whose node is not newer |
| SyncSaved.SidecarDropped | internal/sync/conflict.go:113-165 | a copy whose name nobody lists is saved by the level and gone, row and file, when the pull is over |
| SyncSaved.LocalEditsSurvive | internal/sync/conflict.go:75-165 | under both, manual and local-wins a row with local data keeps row and bytes if and only if strategy both saves no copy over it |
| SyncSaved.EditsOnlyConflict | internal/sync/engine.go:482-489 | where no copy is saved, edits only stay, become dirty or become conflicts |
| SyncSaved.RemoteMtimeMonotone | internal/sync/engine.go:467-489 | the recorded remote time goes back if and only if strategy both saves an older copy over a listed path, after its turn or with an older node |
| SyncSaved.DeletedExactly | internal/sync/engine.go:502-515 | the rows that go are exactly those missing from a remote directory that are clean or evicted, or replaced by a saved copy |
| SyncSaved.EditDropped | internal/sync/conflict.go:125-159 | a concrete cache and tree: a dirty file with the name of the copy goes with it |
| SyncCycle.UploadEffect | internal/sync/engine.go:282-374 | the upload loop changes exactly the listed paths, each as its own upload |
| SyncCycle.UploadIsPointwise | internal/sync/engine.go:282-294 | the loop over the dirty rows in any order is the pointwise upload |
| SyncCycle.RunOpsEffect | internal/sync/engine.go:378-412 | replaying deletes removes exactly the named paths and what lies below |
| SyncCycle.CycleIsPointwise | internal/sync/engine.go:106-124 | a cycle does not depend on the order of any listing |
| SyncConvergence.SettledExactly | internal/sync/engine.go:116-122 | for every state and dirty file on its own: from the second cycle on it is clean with its bytes on the remote if and only if its bytes are cached, its transfer succeeds, and no batch deletes it after its upload |
| SyncConvergence.FailuresKeep | internal/sync/engine.go:296-374 | with failures that differ from cycle to cycle: while its transfer fails, a dirty file stays dirty with its bytes and time |
| SyncConvergence.SettledAfterFailures | internal/sync/engine.go:296-374 | from two cycles after its last failing transfer on the file is settled, whatever other transfers do, if and only if its bytes are cached and no batch from then on deletes it after its upload |
| SyncConvergence.TwoCycleConvergence | internal/sync/engine.go:116-122 | from the second cycle on every dirty file is settled and none is dirty, if and only if all of them can be uploaded and are not deleted, and so can be all Syncing files that the first pull makes dirty |
| SyncConvergence.UsableEditsSettle | internal/sync/engine.go:116-122 | so two cycles settle all when every edit can be uploaded and no queued delete names a dirty file |
| SyncConvergence.DirtyExactly | internal/sync/engine.go:296-374 | the files dirty from the second cycle on are exactly the edits that cannot be uploaded |
| SyncConvergence.EngineRunIsCycles | internal/sync/engine.go:106-124 | n cycles of the engine, whatever its listings, end in the state of these theorems |
| SyncConvergence.QuietRun | internal/sync/engine.go:106-124 | in a quiet world the remote stays a tree and the engine can always take the next cycle |
| SyncConvergence.FixedExactly | internal/sync/engine.go:378-412 | for every state: from the k-th cycle on (k at least 2) rows, files, records and remote never change if and only if no queued delete names a remote path; a rest of puts never does |
| SyncConvergence.OneCycleEnough | internal/sync/engine.go:296-314 | one cycle settles a dirty file if and only if it can be uploaded, the remote has not moved past it and the batch does not delete it |
| SyncConvergence.CycleSettling | internal/sync/engine.go:116-122 | a quiet world stays quiet, and the cycle takes ten operations from the queue |
| SyncConvergence.QuietCycle | internal/sync/engine.go:116-122 | from the second cycle on a cycle changes nothing if and only if its ten operations delete nothing on the remote |
| SyncConvergence.UploadThenDelete | internal/sync/engine.go:120-122 | after n cycles a file that can be uploaded is missing from the remote if and only if a batch deleted it after its upload, and missing locally if and only if a pull listed its directory after that |
| SyncQueue.NothingLost | internal/sync/engine.go:384-413 | an operation leaves the queue when it has been done and only then, each as often as it was queued |
| SyncQueue.BlockedNext | internal/sync/engine.go:384-413 | no cycle blocks or frees an operation behind ten refused ones |
| SyncQueue.DrainsExactly | internal/sync/engine.go:378-414 | every accepted operation is done after enough cycles if and only if none stands behind ten that the adapter always refuses |
| SyncQueue.TenTried | internal/sync/engine.go:378-414 | a cycle tries the ten oldest operations and no other, and those that fail stay ahead of the rest, in order |
| SyncUploads.PassFile | internal/sync/engine.go:282-374 | after an upload pass, under every strategy and in any order, a file changes only where strategy both has saved a copy, which it then holds, or where remote-wins has taken the remote version |
| SyncUploads.PassUploads | internal/sync/engine.go:282-374 | the remote file after the pass: the cached bytes with the row's local time if the upload goes through, else as before |
| SyncUploads.NewerNodeKept | internal/sync/engine.go:296-314 | no upload under any strategy overwrites a remote version newer than the time that the row knows |
| SyncUploads.MovedEdit | internal/sync/conflict.go:62-176 | a dirty file whose remote has moved: under both and manual it keeps its bytes and becomes a conflict on record with both times; under remote-wins it becomes the remote file, or loses its file if the download fails; under local-wins it stays queued; the remote is left alone |
| SyncUploads.MovedCopy | internal/sync/conflict.go:113-165 | strategy both also saves the remote's bytes under the sidecar name, with a clean row of their size and time |
| SyncUploads.TransferNoted | internal/sync/engine.go:316-374 | a transfer that fails leaves the edit dirty with the error noted, one that succeeds a clean row without error and the remote time of the upload |
| SyncUploads.MovedKept | internal/sync/engine.go:116-122 | over a whole cycle under both and manual such a file keeps bytes, conflict and record, and its remote version changes only by a queued delete |
| SyncUploads.MovedReplaced | internal/sync/engine.go:116-122 | over a whole cycle under remote-wins it is the remote file, or gone if the download fails or a queued delete removed it |
| SyncUploads.ConflictStays | internal/sync/engine.go:116-122 | a conflict is left alone by every later cycle, where no copy is saved over it |
| SyncRows.NewPathRow | internal/sync/engine.go:446-464 | a remote path that was unknown ends as an evicted row without ranges, with the node's size, kind and time, under every strategy |
| SyncRows.NewerPathRow | internal/sync/engine.go:467-480 | a clean or evicted row whose remote is newer is evicted with the new size and time, its file is gone, and the rest of the row stays, ranges included |
| SyncRows.SettledPathRow | internal/sync/engine.go:467-500 | a row whose remote is not newer, or that is neither clean, evicted nor an edit, stays as it is |
| SyncRows.EditPathRow | internal/sync/engine.go:482-500 | an edit whose remote is newer is settled by the strategy as in the upload, field by field |
| SyncRows.PullBacked | internal/sync/conflict.go:125-146 | a clean file keeps its cache file through a pull, except exactly where the download of a copy fails over a clean listed file that is not older than its node |
| SyncRows.PassBacked | internal/sync/conflict.go:125-146 | the same for the upload pass, with the uploads that came before the failure |
| SyncRows.RunBacked | internal/sync/engine.go:106-124 | over any number of cycles every clean file has its cache file: always under local-wins, remote-wins and manual, and under both unless such a download fails |
| SyncObjects.Store.Resolve | internal/sync/conflict.go:62-176 | the writes of all four strategies in order give the resolver's value |
| SyncObjects.Engine.UploadFile | internal/sync/engine.go:296-374 | the upload with its state changes gives the function's cache and remote |
| SyncObjects.Engine.UploadDirty | internal/sync/engine.go:282-294 | the loop uploads exactly the dirty files, each as it was listed |
| SyncObjects.Engine.ProcessPendingOps | internal/sync/engine.go:378-414 | the ten oldest operations are tried in turn; what succeeds leaves the queue, what fails keeps its place |
| SyncObjects.Engine.PullEntry | internal/sync/engine.go:433-500 | one listed file |
| SyncObjects.Engine.DropGone | internal/sync/engine.go:502-515 | the deletion loop drops exactly the stale children |
| SyncObjects.Engine.PullDir | internal/sync/engine.go:422-528 | the recursive method, with its three loops, gives the recursive function |
| SyncObjects.Engine.Tick | internal/sync/engine.go:116-122 | one tick, under every strategy and with failing operations, is one engine cycle; under local-wins without failures the pointwise cycle |
| Conflicts.ApplyResolution | internal/cli/conflicts.go:212-313 | the writes of the three choices, with every early return |
| Conflicts.ResolvedPath | internal/cli/conflicts.go:212-313 | a success leaves no record and no conflict, and the promised bytes |
| Conflicts.SucceedsExactly | internal/cli/conflicts.go:212-313 | success means exactly that the row is there and, if it is needed, the remote version too |
| Conflicts.ResolvedRow | internal/cli/conflicts.go:217-257 | the row afterwards: dirty and otherwise unchanged, or clean with the times of the record |
| Conflicts.BothKept | internal/cli/conflicts.go:259-307 | keeping both saves the remote's bytes as the sidecar, with a clean row of their size and the record's time, unless a file is there already, which stays |
| Conflicts.OthersKept | internal/cli/conflicts.go:212-313 | no other path changes, on success or failure; a failure keeps row and record, and the file too except under keep remote |
| Conflicts.KeptCopyLives | internal/sync/engine.go:502-515 | the saved copy is still there after the next cycle if and only if the remote has a file of its name that is not newer, or no longer the directory |
| Conflicts.KeptLocalUploads | internal/cli/conflicts.go:217-225 | a kept local version is on the remote after one cycle, and after n, exactly if it can be uploaded, is not deleted afterwards and, for one cycle, the remote has not moved past its row |
| Conflicts.LocalBytesLost | internal/cli/conflicts.go:227-257 | the local bytes are gone if and only if the row exists and the download fails or differs |
| Conflicts.SizeAfterKeepRemote | internal/cli/conflicts.go:247-253 | the size column is right afterwards if and only if the sizes were equal before |
| Conflicts.MarkScriptIsResolve | internal/sync/conflict.go:113-176 | the single writes of the resolver add up to the resolver |
| Conflicts.ResolveScriptIsApplied | internal/cli/conflicts.go:212-313 | the single writes of the command line add up to the resolution |
| Conflicts.SingleWrites | internal/cache/db.go:169-241 | the scripts of local writes, state changes and deletes write their own row and nothing else |
| Conflicts.BookedExactly | internal/cache/db.go:541-565 | conflicts are booked at every write boundary of an interleaving if and only if no write marks without a record or removes a record in use |
| Conflicts.SerialBooked | internal/cache/db.go:541-565 | that is so whenever no two actors work on the conflict of one path |
| Conflicts.ResolveRace | internal/cli/conflicts.go:217-225 | an interleaving with the resolver that leaves a conflict without a record |
| Pins.CompactPinnedEntries | internal/cli/pin.go:276-307 | the output is exactly the entries that should show, each once, sorted by name, and none below a collapsed directory |
| Pins.CollapseCandidates | internal/cli/pin.go:324-383 | the candidates are exactly the fully pinned directories, shorter paths first |
| Pins.Collapse | internal/cli/pin.go:286-299 | no collapsed directory is removed again |
| Pins.HasCollapsedAncestor | internal/cli/pin.go:309-322 | whether some collapsed directory lies above |
| Pins.AllFilesPinned | internal/cli/pin.go:362-380 | whether the directory holds files and all are pinned |
| Pins.ShownExactly | internal/cli/pin.go:276-307 | a file is pinned if and only if it shows or lies below a shown fully pinned directory |
| Pins.ShownOnce | internal/cli/pin.go:276-307 | at most one shown entry stands for a file |
| Pins.ShownOnly | internal/cli/pin.go:362-383 | what shows is pinned itself or a directory that holds files, all of them pinned |
| Pins.ReadAsDirectories | internal/cli/pin.go:278-280 | taking every shown directory for all of its files is right if and only if no shown pinned directory holds an unpinned file |
| Pins.UnpinnedBelowShown | internal/cli/pin.go:278-280 | a concrete listing with an unpinned file below a shown directory |
| Pins.ParentShorter | internal/cli/pin.go:345-350 | a directory is met before everything below it |
| Eviction.Evictor.ListEvictable | internal/cache/db.go:734-767 | exactly the rows of the WHERE clause, oldest access first |
| Eviction.ListedExactly | internal/cache/db.go:742-745 | in terms of the columns: exactly the unpinned files that are clean, downloading or name ranges |
| Eviction.PinnedStays | internal/cache/db.go:742-745 | a pinned row or a directory keeps row and file through every pass and every check, whatever its state and ranges |
| Eviction.Evictor.EvictByAge | internal/cache/eviction.go:72-85 | evicts exactly the candidates not accessed since the cutoff |
| Eviction.Evictor.EvictBySize | internal/cache/eviction.go:115-136 | evicts the shortest prefix of the listing that frees enough by the rows' sizes |
| Eviction.Evictor.EvictByFreeSpace | internal/cache/eviction.go:87-113 | the same for free space |
| Eviction.Evictor.Check | internal/cache/eviction.go:58-70 | age pass, then free-space pass, then size pass, each on what is left |
| Eviction.OthersUntouched | internal/cache/eviction.go:115-136 | rows that are not candidates keep row and file |
| Eviction.CheckedCells | internal/cache/eviction.go:58-70 | a check leaves a path as it is or removes its file and marks the row evicted without ranges, all other columns kept; no row and no conflict record goes |
| Eviction.EditUploads | internal/sync/engine.go:331-374 | an edit is uploaded as it was written, with its bytes and time, and the row becomes clean with their size and time |
| Eviction.CounterExact | internal/cache/eviction.go:128-135 | the counter is the real usage after every eviction if and only if every evicted row names its file's bytes |
| Eviction.SizeBound | internal/cache/eviction.go:115-136 | the usage reaches the limit or nothing is left, and no eviction was superfluous |
| Eviction.LruOrder | internal/cache/db.go:743-745 | nothing goes while a candidate with an older access stays |
| Eviction.SecondCheckQuiet | internal/cache/eviction.go:58-70 | under all three limits a second check evicts nothing, if the file system has the freed bytes back |
| Eviction.EditEvicted | internal/cache/db.go:743-745 | an edited file is a candidate if and only if its row names ranges and is unpinned; the age pass takes it if and only if it was not accessed after the cutoff, the other passes if and only if the candidates before it free too little; then the edit is gone |
| Eviction.ReEvictedIsPhantom | internal/sync/engine.go:470-480 | a re-evicted row without a file is a candidate if and only if it named ranges |
| Eviction.PhantomBytes | internal/cache/eviction.go:128-135 | a candidate without a file stops the pass although nothing was freed |
| Connectivity.Monitor.Probed | internal/connectivity/monitor.go:168-211 | one probe is one step of the machine, with the state to broadcast |
| Connectivity.Monitor.Context | internal/connectivity/monitor.go:112-119 | the context handed out is cancelled exactly while offline, and is the only one that can be alive |
| Connectivity.Monitor.NotifyQueueDrained | internal/connectivity/monitor.go:121-134 | reconnecting becomes online, nothing else changes |
| Connectivity.ContextsAlwaysRight | internal/connectivity/monitor.go:112-119 | the current context is cancelled exactly while offline, all older ones always |
| Connectivity.OldContextsCancelled | internal/connectivity/monitor.go:112-119 | every context ever handed out is cancelled by the first offline after it |
| Connectivity.FailuresCounted | internal/connectivity/monitor.go:173-198 | the counter is the length of the trailing failure run |
| Connectivity.OfflineExactly | internal/connectivity/monitor.go:168-211 | offline, in terms of the trace alone |
| Connectivity.GoesOfflineAt | internal/connectivity/monitor.go:173-192 | online goes offline exactly at the threshold-th failure in a row, reconnecting at the first |
| Connectivity.InStepUnlessDropped | internal/sync/engine.go:130-155 | however changes of state, broadcasts and the listener interleave: if no broadcast is dropped, the engine is paused exactly while offline once it has handled all there is |
| Connectivity.RecoversExactly | internal/connectivity/monitor.go:221-229 | successful probes bring a quiet engine back if and only if it works already or the monitor is offline |
| Connectivity.MissedReconnect | internal/connectivity/monitor.go:101-110 | a run that drops the reconnect and leaves the monitor waiting |
| Connectivity.PausedOnline | internal/connectivity/monitor.go:101-110 | a run that leaves the engine paused beside an online monitor |
| Foreground.Marks.MarkForeground | internal/download/manager.go:406-414 | one more handle on the path |
| Foreground.Marks.UnmarkForeground | internal/download/manager.go:419-427 | one handle less, and no entry at zero |
| Foreground.CountsAlwaysRight | internal/fuse/node.go:570-638 | along every run the count of a path is its started handles plus unfinished releases |
| Foreground.AtMostOneChunk | internal/download/manager.go:700-728 | while others read, a sequential prefetch goroutine adds at most one more chunk |
| Foreground.CancelledAddsNothing | internal/download/manager.go:718-723 | a cancelled goroutine leaves the yield loop without writing |
| Foreground.SleepersStep | internal/download/manager.go:386-427 | sleepers stay justified by every step but the removal of their path without a broadcast |
| Foreground.SleepersHaveReasons | internal/download/manager.go:708-727 | along every run without such a removal, whoever sleeps unwoken belongs to a registered prefetch, another file is read and its own is not |
| Foreground.LoopExactly | internal/download/manager.go:712-725 | a round of the yield loop goes on exactly if the own file is read or none is, leaves exactly if the download was removed, and sleeps otherwise |
| Foreground.PromotionWakes | internal/download/manager.go:406-414 | opening the file of a sleeping goroutine wakes it, and it goes on |
| Foreground.LastReleaseWakes | internal/download/manager.go:419-427 | so does the release of the last handle on the others |
| Foreground.EndedAddsNothing | internal/download/manager.go:772-795 | after the end of its stream a goroutine adds no chunk on any run |
| Foreground.RoundAddsOne | internal/download/manager.go:644-727 | a prefetch whose file is read, or while none is, and any other download at any time, can add a chunk and be ready for the next |
| Foreground.CancelStops | internal/download/manager.go:385-404 | after Cancel and until the path is registered again, a goroutine that is not just reading adds nothing and never sleeps unwoken |
| Foreground.PrefetchStays | internal/download/manager.go:294-322 | a download stays a prefetch, and registered until it is cancelled or forgotten |

## Left out

- DownloadSafety.ReadIsRemote: stated for a remote file that does not change during the run, without eviction or unlink of the cache file meanwhile.
- DownloadWait.WaitEnds: counts serving steps; that a possible step is eventually taken is the scheduler's part.
- DownloadLimit.GrantedExactly: faults, several waiting readers, and the hints and prefetch requests that can end a doomed wait are left out of its runs. Undecided before the call, because the outcome differs from run to run: a goroutine that is cancelled but has not noticed, or one that is not sequential, when it starts before the missing byte and may leave before it gets there; and, with several handles and no goroutine near, a read longer than one chunk of 1 MiB, whose new goroutine leaves where the chunk after its position is covered already.
- Foreground.AtMostOneChunk: the sequential goroutine of one download; the non-sequential ones are not preempted by the code.
- SyncConvergence.SettledExactly: deletes are the only pending operations with an effect; one upload is atomic with respect to local writes. Transfers that fail in some cycles only are the subject of `SyncConvergence.SettledAfterFailures`.
- SyncSaved.CopySurvives: a saved copy whose name a directory on disk bears cannot be created; which directories exist on disk is not part of this model.
- SyncObjects.Engine.ProcessPendingOps: deletes and puts only; mkdir and rename operations are not part of this model.
- Conflicts.KeptCopyLives: the cycle is that of local-wins, as in `KeptLocalUploads`.
- DownloadLag.CrashCosts: a checkpoint under way when the process dies counts as not stored; the bytes at risk are counted against the row when no flusher is at work.
- Eviction.SecondCheckQuiet: nobody else takes disk space between the two checks.
- `Manager.WaitForRange` for a path without a Download returns nil at once; reads go through the Download itself.
- The manager's `Prefetch` and `ReleaseReader` appear only as the flags and steps they set off.
- A failed listing, which the engine logs and retries in the next cycle.
- 64-bit overflow of offsets, sizes and times, JSON text, SHA-256 checksums, file modes and inode numbers.
- SQLite itself: locking, busy retries, and LIKE with `%`, `_` or case folding. Identity and detection time of conflict records.
- Directory creation and rename, and their replay on the remote: a rename moves one row and not those below it.
- Wall-clock timing: tickers, back-off sleeps and their lengths are free choices of a run.
- The second attempt of `OpenOrCreate` when opening an existing file of the right size fails.
- FUSE bindings, sockets, OAuth, Drive calls, command-line rendering, quota and status output.
