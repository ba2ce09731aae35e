# Verified models of the eve packages

Dafny models of the parts of the eve packages whose correctness rests on ordering, crashes, partial failure or
exact formats, with the properties those parts exist for. `dafny verify dfyconfig.toml` checks everything.

## What is modelled

**Session authority on AWS Lambda MicroVMs.** Many processes share one JSON document per session, changed only
by conditional writes. `Lease`, `LeaseProtocol` and `LeaseHandle` model the lease: the store, clients with a
queue of writes, writes and responses delayed or lost without bound, a clock, and crashes. `LeaseRenewal` says
for how long a lease is held. `LeaseHandle.Handle` is one process's lease object; its methods have the guards
that the steps of `LeaseProtocol` use. On top, `Session`, `SessionProtocol`, `SessionSafety` and
`SessionUploads` add the launch, adopt, capture (with its multipart upload) and retire protocol.
`SessionDeletes` says which session a delete erases, `SessionPaths` and `SessionOutcomes` where an undisturbed
create, capture or delete leads. `SessionRuntime.Runtime` is one process's side of it as an object, and
`SessionDriver.Driver` joins it with the lease object: each of its turns performs a move of the session world,
and its turns follow every run of that world up to the process's crash. ETags are taken to depend on document
content only, the weakest assumption, so a delayed write may find an equal document again.

**The durable cell.** `Cell` is the state machine of one sandbox cell: a serialized queue, a command journal
with pruning, a memory image that becomes durable only at a sync, replies that are held until then,
cancellation racing with commit, and crashes followed by recovery. `CellWorker.SandboxCell` is the same as a
class. `CellSafety`, `CellJournal` and `CellAnswers` hold the invariants, `CellTheorems` what follows for
whole runs, and `CellRace` says exactly which requests break it. `CellReplies` relates replies to the requests
that got them, and `CellOutcomes` says what each request achieves.

**Durable workspaces.** `Workspace`, `WorkspacePaths`, `AgentFsTree` and `AgentFs` model the snapshot
validation and the differential save into a stored tree of files and directories, and relate it to writing the
snapshot into an empty tree. `Doubles`, `Timestamps` and `StoredTimes` do the arithmetic on modification times
with the rounding of the binary64 format of IEEE 754-2019.

**Container builds.** `BuildRecipe` and `ContainerCell` model the recipe log of a build and compare it with
what really completed in the container; `BuildOutcomes` says what a build publishes and what keeps it from
being published.

**Exact algorithms.** `Crc32`, `ZipLayout`, `ZipFormat`, `ZipBytes`, `ZipRoundTrip`, `Zip` and `ZipPaths`: the
stable ZIP writer, byte by byte and read back per sections 4.3.7, 4.3.12 and 4.3.16 of PKWARE's APPNOTE.TXT
with the checksum of section 8 of RFC 1952. `JsonText`, `JsonStrings`, `CanonicalJson`, `JsonGrammar` and
`CanonicalGraph`: the canonical text that mutation fingerprints hash, against the grammar of RFC 8259.
`TarFormat`, `Tar`, `TarRules` and `TarRoundTrip`: the npm archive reader against the section "ustar
Interchange Format" of the pax utility in POSIX.1-2017. `Retention`: the token-budget selection of user
messages. `TransferProtocol` and `Transfer`: chunked file transfer between client and controller.
`Installation` and `Installer`: the owned-file plugin installer.

Imperative code is modelled by classes and loops proved against specification functions, and the properties of
the whole are proved about those functions.

## Where the code does less than one would expect

- A delete of a cell that is requested while a pending open will reopen its generation does not keep commands
  out: the open lets them in again behind the delete, their rows are lost, a command of the old generation
  commits in the next one, and one command may be answered both failed and timed out.
  `CellRace.DeleteIsSafeIffNotUndone` gives the exact condition, for answers, ledger and rows;
  `CellRace.RaceBreaksPromises` reaches it from an empty cell. Everything about rows and answers is proved for
  all runs without such a delete.
- A controller restart between a file operation and its log entry, a container replaced during a step, and a
  command started in a container that was not opened lose a recipe step without marking the build failed
  (`BuildRecipe.ExactIffUndisturbed`, `BuildRecipe.RestartPublishesLess`,
  `BuildRecipe.ReplacementPublishesLess`). A session whose container is replaced during the replay becomes
  ready with the later steps only (`BuildRecipe.ReplayHoldsAll`).
- The snapshot validation accepts snapshots that are not closed under parents, which no tree can store
  (`AgentFsTree.OrphanPassesValidation`, `AgentFsTree.OnlyClosedIsStored`). Modification times less than 2^33
  milliseconds (99.4 days) from 1970 come back only if they are what a load returns for some second and
  nanosecond; the doubles between come back changed (`Timestamps.ComesBackIff`, `Timestamps.ComesBackAs`,
  `Timestamps.DayIsNotKept`). All other times come back exactly (`StoredTimes.SnapshotComesBack`).
- A file transfer whose commit is served but not answered is reported as failed although the file holds the
  new bytes (`Transfer.UnansweredCommit`).
- The ZIP writer sorts by a comparison; files it cannot tell apart keep their input order
  (`Zip.InputOrderIndependence`).

## Model

| member | source | states |
|---|---|---|
| `LeaseHandle.Handle.constructor` | packages/eve-aws-lambda-microvms/src/lease.ts:106-112 | a lease object starts with the acquired document as its memory and as its ETag, an empty queue, not aborted |
| `LeaseHandle.Handle.CheckDeadline` | packages/eve-aws-lambda-microvms/src/lease.ts:45-48 | succeeds exactly before the deadline and when not aborted; a failure leaves the lease aborted |
| `LeaseHandle.Handle.Check` | packages/eve-aws-lambda-microvms/src/lease.ts:120-124 | succeeds exactly when the lease passes deadline, abort, release and expiry; any failure aborts it for good |
| `LeaseHandle.Handle.EnsureHeld` | packages/eve-aws-lambda-microvms/src/lease.ts:178-182 | after a passing check queues one renewal that doubles as the remote ownership check, and does nothing to the queue otherwise |
| `LeaseHandle.Handle.RenewalTimer` | packages/eve-aws-lambda-microvms/src/lease.ts:163-166 | the timer queues a renewal behind everything queued before it |
| `LeaseHandle.Handle.UpdateState` | packages/eve-aws-lambda-microvms/src/lease.ts:195-197 | queues a publication of the given state |
| `LeaseHandle.Handle.StartNext` | packages/eve-aws-lambda-microvms/src/lease.ts:136-147 | starts the head of the queue: its payload and the conditional write are decided now, not when it was queued; a failed check sends nothing |
| `LeaseHandle.Handle.Confirm` | packages/eve-aws-lambda-microvms/src/lease.ts:149-158 | a confirmed write becomes the document and the ETag, but does not revive a lease whose previous expiry the response outlived |
| `LeaseHandle.Handle.Fail` | packages/eve-aws-lambda-microvms/src/lease.ts:159-161 | a write that fails, or whose outcome is unknown, aborts the lease |
| `LeaseHandle.Handle.Promote` | packages/eve-aws-lambda-microvms/src/lease.ts:183-194 | lifts the deadline exactly when the lease still passes its check, and then arms a timer for a renewal |
| `LeaseHandle.Handle.PromotionTimer` | packages/eve-aws-lambda-microvms/src/lease.ts:190-193 | an armed timer of a lease that was neither aborted nor released queues one renewal behind everything queued before it |
| `LeaseHandle.Handle.Settle` | packages/eve-aws-lambda-microvms/src/lease.ts:205-215 | the end of a release's write, either way, lets the queue go on |
| `LeaseHandle.Handle.Release` | packages/eve-aws-lambda-microvms/src/lease.ts:198-217 | aborts at once, queues one conditional write, and a second release changes nothing |
| `LeaseProtocol.StepInv` | packages/eve-aws-lambda-microvms/src/lease.ts:62-217 | every step of store, clients, clock, responses and crashes keeps the inductive invariant |
| `LeaseProtocol.RunInv` | packages/eve-aws-lambda-microvms/src/lease.ts:62-217 | the invariant holds after every run, and the log of effective writes only grows |
| `LeaseProtocol.PassingLeaseIsStored` | packages/eve-aws-lambda-microvms/src/lease.ts:120-124 | a lease that passes its check is the stored holder, and the store holds its document or its own write in progress |
| `LeaseProtocol.MutualExclusion` | packages/eve-aws-lambda-microvms/src/lease.ts:62-105 | in every run and at every instant, at most one lease on a key passes its check, with arbitrary delays of writes and responses |
| `LeaseProtocol.UnpromotedExpiryIsCapped` | packages/eve-aws-lambda-microvms/src/lease.ts:141-147 | until it is promoted, a passing lease never has an expiry in the store beyond its launch deadline |
| `LeaseProtocol.GenerationsAdvance` | packages/eve-aws-lambda-microvms/src/lease.ts:73-84 | along the writes that took effect generations never fall, and every acquisition raises them |
| `LeaseProtocol.GenerationHasOneOwner` | packages/eve-aws-lambda-microvms/src/lease.ts:73-84 | two effective writes under one generation have the same owner |
| `LeaseProtocol.Fencing` | packages/eve-aws-lambda-microvms/src/lease.ts:205-216 | once a generation is stored, no write issued under an earlier one takes effect in any continuation |
| `LeaseProtocol.StaleWriteIsRejected` | packages/eve-aws-lambda-microvms/src/lease.ts:148-152 | a delayed write of an older generation, or of an acquisition that came second, is rejected and changes nothing |
| `LeaseProtocol.DocumentIsRegister` | packages/eve-aws-lambda-microvms/src/lease.ts:74-80 | the state in the document is always the payload of the last publication that took effect |
| `LeaseProtocol.HoldersReadTheRegister` | packages/eve-aws-lambda-microvms/src/lease.ts:136-147 | an acquirer starts from that state and an idle passing holder reads it; renewals, checks, releases and takeovers never bring an older one back |
| `LeaseRenewal.RenewalRenews` | packages/eve-aws-lambda-microvms/src/lease.ts:141-158 | a renewal or publication started and confirmed in time lets the lease pass for a full term from its start, as far as the deadline allows |
| `LeaseRenewal.PromotedRenewalRenews` | packages/eve-aws-lambda-microvms/src/lease.ts:183-194 | once promoted, a lease is renewed past its launch deadline |
| `LeaseRenewal.LateResponseAborts` | packages/eve-aws-lambda-microvms/src/lease.ts:153-156 | a response that the previous expiry overtook does not bring the lease back |
| `LeaseRenewal.FirstComeFirstServed` | packages/eve-aws-lambda-microvms/src/lease.ts:136-140 | requests start in the order in which they were made |
| `LeaseRenewal.RenewalKeepsLease` | packages/eve-aws-lambda-microvms/src/lease.ts:141-158 | in every run, a lease whose renewal was started in time and is over passes, unless it was aborted, for a full term from the start |
| `LeaseRenewal.AcquiredLeasePasses` | packages/eve-aws-lambda-microvms/src/lease.ts:68-98 | in every run, an acquired lease passes, unless it was aborted, for a full term from when it was asked for |
| `LeaseRenewal.RenewalSecuresLease` | packages/eve-aws-lambda-microvms/src/lease.ts:141-158 | in every run, once a renewal took effect the store names its holder, and nobody else, for a full term from when it was sent, unless the holder gives up |
| `LeaseRenewal.AcquisitionSecuresLease` | packages/eve-aws-lambda-microvms/src/lease.ts:68-98 | the same for the write that acquires the lease |
| `LeaseRenewal.AbortedForGood` | packages/eve-aws-lambda-microvms/src/lease.ts:113-119 | in every run, an aborted lease never passes again |
| `LeaseRenewal.ReleaseFreesLease` | packages/eve-aws-lambda-microvms/src/lease.ts:198-217 | a release sends its write, and once that took effect whoever looks may acquire at once |
| `SessionRuntime.Runtime.constructor` | packages/eve-aws-lambda-microvms/src/backend.ts:382-432 | a runtime starts waiting for its lease, with the metadata and template it was given |
| `SessionRuntime.Runtime.OnGranted` | packages/eve-aws-lambda-microvms/src/backend.ts:417-439 | after acquisition a create adopts the stored metadata and learns the VM it must retire; a late cleanup goes on only if its launch is still the pending one |
| `SessionRuntime.Runtime.OnVerified` | packages/eve-aws-lambda-microvms/src/backend.ts:438-445 | what follows a successful ownership check at each stage: retire or claim, request, record or reject, restore, hand over, delete; whether a launched VM matches its request is the caller's observation |
| `SessionRuntime.Runtime.Propose` | packages/eve-aws-lambda-microvms/src/backend.ts:446-449 | the state each stage asks the lease to publish: a launch named after the generation, the saved request or a new one, the VM, the captured metadata, or nothing |
| `SessionRuntime.Runtime.OnPublished` | packages/eve-aws-lambda-microvms/src/backend.ts:538-545 | what a stored state lets the runtime do next; only then does it know a VM it may terminate |
| `SessionRuntime.Runtime.OnTerminationSent` | packages/eve-aws-lambda-microvms/src/backend.ts:441-444 | after dispatching a termination the runtime waits for its outcome |
| `SessionRuntime.Runtime.OnTerminated` | packages/eve-aws-lambda-microvms/src/backend.ts:441-449 | a confirmed termination leads to the claim, the clearing of the launch, or the erasure |
| `SessionRuntime.Runtime.OnCheckpointed` | packages/eve-aws-lambda-microvms/src/backend.ts:502-511 | a capture will publish the named checkpoint under the next generation, or the previous checkpoint if there was nothing to upload |
| `SessionDriver.Driver.constructor` | packages/eve-aws-lambda-microvms/src/backend.ts:417-439 | a confirmed acquisition turns the process into one whose runtime and lease object mirror the world's |
| `SessionDriver.Driver.WriteReturned` | packages/eve-aws-lambda-microvms/src/lease.ts:148-162 | the answer to a publication or an ownership check performs the world's confirmation; a late one aborts the lease and moves nothing |
| `SessionDriver.Driver.WriteFailed` | packages/eve-aws-lambda-microvms/src/lease.ts:159-161 | a failed or lost write is the world's failed write |
| `SessionDriver.Driver.UpdateState` | packages/eve-aws-lambda-microvms/src/lease.ts:195-197 | asking for a publication is the world's move of that stage |
| `SessionDriver.Driver.Renew` | packages/eve-aws-lambda-microvms/src/lease.ts:163-166 | a renewal is the world's queued renewal |
| `SessionDriver.Driver.StartNext` | packages/eve-aws-lambda-microvms/src/lease.ts:136-152 | the write that the object sends is exactly the one the world then has in flight |
| `SessionDriver.Driver.Deliver` | packages/eve-aws-lambda-microvms/src/backend.ts:312-325 | handing the session over is the world's delivery if the lease still passes its check, and otherwise the world's abort of the lease, with nothing handed over |
| `SessionDriver.Driver.PromotionTimer` | packages/eve-aws-lambda-microvms/src/lease.ts:190-193 | the timer that the handover armed queues the world's renewal |
| `SessionDriver.Driver.Abort` | packages/eve-aws-lambda-microvms/src/lease.ts:167-171 | an abort of the lease is the world's |
| `SessionDriver.Driver.LaunchReturned` | packages/eve-aws-lambda-microvms/src/backend.ts:831-834 | the answer to the launch call is the world's |
| `SessionDriver.Driver.FailReadiness` | packages/eve-aws-lambda-microvms/src/backend.ts:448-459 | a start-up that fails in any stage after the VM was recorded is the world's failure |
| `SessionDriver.Driver.BeginCapture` | packages/eve-aws-lambda-microvms/src/backend.ts:498-503 | a capture begins as the world's |
| `SessionDriver.Driver.Transmit` | packages/eve-aws-lambda-microvms/src/checkpoint.ts:26-67 | each request of an upload is the world's, and the object it begins has the name of the next checkpoint |
| `SessionDriver.Driver.AbandonCapture` | packages/eve-aws-lambda-microvms/src/checkpoint.ts:61-67 | a capture that fails before it publishes is the world's |
| `SessionDriver.Driver.BeginDelete` | packages/eve-aws-lambda-microvms/src/backend.ts:593-604 | a delete begins as the world's |
| `SessionDriver.Driver.SendLaunch` | packages/eve-aws-lambda-microvms/src/backend.ts:804-834 | the launch call carries the request that the document has, and the world records it |
| `SessionDriver.Driver.Terminate` | packages/eve-aws-lambda-microvms/src/backend.ts:382-388 | the VM that the object terminates is the one the world records as terminated by this process |
| `SessionDriver.Driver.TerminationReturned` | packages/eve-aws-lambda-microvms/src/backend.ts:384-392 | a confirmed termination is the world's |
| `SessionDriver.Driver.NameCheckpoint` | packages/eve-aws-lambda-microvms/src/backend.ts:511-549 | a capture names only a checkpoint that the world allows it to name |
| `SessionDriver.Driver.Release` | packages/eve-aws-lambda-microvms/src/lease.ts:198-217 | a release is the world's |
| `SessionDriver.Driver.ReleaseSettled` | packages/eve-aws-lambda-microvms/src/lease.ts:205-215 | the end of a release's write is the world's |
| `SessionDriver.Driver.Follow` | packages/eve-aws-lambda-microvms/src/backend.ts:312-625 | in every run of the world, whatever the other processes, the store and the clock do, the objects go through this process's moves turn by turn and mirror the world after each, up to the process's crash |
| `SessionDriver.MirroredHandleIsSafe` | packages/eve-aws-lambda-microvms/src/backend.ts:692-719 | while the objects of a delivered handle pass their own lease check, no process has dispatched a termination of their VM |
| `SessionSafety.MoveKeeps` | packages/eve-aws-lambda-microvms/src/backend.ts:382-458 | every move of every process keeps the invariant of the session world |
| `SessionSafety.BehaviourKeeps` | packages/eve-aws-lambda-microvms/src/backend.ts:382-458 | the invariant holds after every run |
| `SessionSafety.LaunchesGrow` | packages/eve-aws-lambda-microvms/src/backend.ts:804-813 | a stored launch keeps its request and its VM for as long as any document names it |
| `SessionSafety.NoLiveHandleLosesItsVm` | packages/eve-aws-lambda-microvms/src/backend.ts:692-719 | in every run, while a delivered handle passes its lease check no process has dispatched a termination of its VM: neither a successor, nor a cleanup of a late result, nor an earlier owner |
| `SessionSafety.LiveVmIsSafe` | packages/eve-aws-lambda-microvms/src/backend.ts:439-449 | the same in every state that satisfies the invariant |
| `SessionSafety.RetriesReplayTheRequest` | packages/eve-aws-lambda-microvms/src/backend.ts:792-813 | in every run, launch calls with one client token carry one and the same request |
| `SessionSafety.CheckpointsMoveForward` | packages/eve-aws-lambda-microvms/src/backend.ts:498-545 | between deletes the committed checkpoint is either the same or one of a higher generation, whoever holds the session |
| `SessionSafety.CommittedCheckpointNeverRegresses` | packages/eve-aws-lambda-microvms/src/backend.ts:498-545 | in every run without an erasing write the committed generation never decreases |
| `SessionSafety.OnlyDeletesErase` | packages/eve-aws-lambda-microvms/src/backend.ts:616-621 | a write that erases committed metadata is sent only by a process that is deleting, and erases the metadata that process knows as its own |
| `SessionSafety.UploadingCaptureRises` | packages/eve-aws-lambda-microvms/src/backend.ts:501-510 | a capture that uploads is about to publish a generation above the committed one |
| `SessionSafety.CapturePublishesBeforeTermination` | packages/eve-aws-lambda-microvms/src/backend.ts:531-570 | a capture dispatches its termination only after the authority naming its metadata took effect in the store |
| `SessionDeletes.RetriedDeleteErasesItsOwn` | packages/eve-aws-lambda-microvms/src/backend.ts:593-619 | in every run, whatever a delete that took the lease again publishes, it publishes over metadata with the tag its handle knew |
| `SessionOutcomes.RetriedDelete` | packages/eve-aws-lambda-microvms/src/backend.ts:614-619 | such a delete erases the session if the document still has that tag, and otherwise leaves it as it is |
| `SessionOutcomes.CreateDelivers` | packages/eve-aws-lambda-microvms/src/backend.ts:382-447 | undisturbed, a create delivers a handle on the pending launch, replaying its saved request, or on a launch of its own, over the metadata stored or given, with exactly one launch call |
| `SessionOutcomes.CreateReplaces` | packages/eve-aws-lambda-microvms/src/backend.ts:384-392 | undisturbed, a create that finds a recorded VM terminates it and delivers a handle on a new one |
| `SessionOutcomes.OwnConfiguration` | packages/eve-aws-lambda-microvms/src/backend.ts:803-813 | what is requested under a launch is always the configuration of the process itself: a saved request for another one is not replayed |
| `SessionOutcomes.MismatchIsRetired` | packages/eve-aws-lambda-microvms/src/backend.ts:836-851 | a VM that does not match its request is recorded and terminated, and no handle is delivered |
| `SessionOutcomes.FailureIsCleared` | packages/eve-aws-lambda-microvms/src/backend.ts:448-459 | a start-up that fails terminates its VM and clears the launch, and the committed metadata stays |
| `SessionOutcomes.LateResultIsRetired` | packages/eve-aws-lambda-microvms/src/backend.ts:692-719 | a late result is recorded, terminated and its launch cleared if it is still the pending one, and nothing happens otherwise |
| `SessionOutcomes.CaptureCommits` | packages/eve-aws-lambda-microvms/src/backend.ts:498-579 | a capture that uploaded commits the next checkpoint, whole in the store, and then terminates the VM |
| `SessionOutcomes.CaptureKeepsCheckpoint` | packages/eve-aws-lambda-microvms/src/backend.ts:498-579 | a capture that found nothing to upload commits the checkpoint it had |
| `SessionOutcomes.DeleteErases` | packages/eve-aws-lambda-microvms/src/backend.ts:593-619 | a delete terminates the VM, awaits it and erases what was committed |
| `SessionOutcomes.DeleteAfterCaptureErases` | packages/eve-aws-lambda-microvms/src/backend.ts:602-619 | with the VM gone already a delete erases at once |
| `SessionUploads.AuthorityNamesUploadedCheckpoints` | packages/eve-aws-lambda-microvms/src/checkpoint.ts:26-71 | in every run, every checkpoint that a stored document names has an object of all its parts in order, completed and of the expected size, although uploads of any process may stop, fail or be aborted at any part |
| `SessionUploads.NamedCheckpointsAreWhole` | packages/eve-aws-lambda-microvms/src/checkpoint.ts:26-67 | part by part: every object that a stored document names has each part announced, numbered from one, and the size announced |
| `SessionUploads.TransmitBacked` | packages/eve-aws-lambda-microvms/src/checkpoint.ts:26-67 | no step of an upload, from begin over the parts to completion, size check and abort, takes away from an object that a document names |
| `SessionUploads.OnlyOwnUploads` | packages/eve-aws-lambda-microvms/src/checkpoint.ts:26-67 | an upload is changed only by the process that began it, and not once it is completed |
| `CellWorker.SandboxCell.constructor` | packages/eve-celld-sandbox/src/worker/just-bash.ts:140-165 | recovery: the cell restarts on what the disk kept, and every unfinished row becomes interrupted |
| `CellWorker.SandboxCell.Finish` | packages/eve-celld-sandbox/src/worker/just-bash.ts:183-190 | the result goes to whatever row has the id now, and to none if there is no such row |
| `CellWorker.SandboxCell.Prune` | packages/eve-celld-sandbox/src/worker/just-bash.ts:408-414 | drops finished rows past their age and beyond the newest 127, never an unfinished one |
| `CellWorker.SandboxCell.Record` | packages/eve-celld-sandbox/src/worker/just-bash.ts:408-422 | makes room and adds the unfinished row of a new command |
| `CellWorker.SandboxCell.Repeat` | packages/eve-celld-sandbox/src/worker/just-bash.ts:387-402 | a known id gives its stored result, a conflict on other input, the running command, or the error for an unfinished row without one; nothing is synced |
| `CellWorker.SandboxCell.Accept` | packages/eve-celld-sandbox/src/worker/just-bash.ts:403-435 | a new id is refused when stopped or full, journaled as cancelled, or journaled and queued; nothing is synced |
| `CellWorker.SandboxCell.Execute` | packages/eve-celld-sandbox/src/worker/just-bash.ts:375-435 | the whole synchronous part of execute and cancel, from the generation check and the size limit on, with the reply the caller hears |
| `CellWorker.SandboxCell.Serialize` | packages/eve-celld-sandbox/src/worker/just-bash.ts:191-202 | a job goes to the end of the queue, unless the queue is full and the job is no barrier |
| `CellWorker.SandboxCell.Sync` | packages/eve-celld-sandbox/src/worker/just-bash.ts:443-443 | memory becomes durable and every held reply is released |
| `CellWorker.SandboxCell.RequestFile` | packages/eve-celld-sandbox/src/worker/just-bash.ts:275-276 | a file operation is queued or refused |
| `CellWorker.SandboxCell.RequestOpen` | packages/eve-celld-sandbox/src/worker/just-bash.ts:275-277 | an open is queued or refused |
| `CellWorker.SandboxCell.Status` | packages/eve-celld-sandbox/src/worker/just-bash.ts:231-241 | the stored result of a command, read without waiting for the queue |
| `CellWorker.SandboxCell.Stop` | packages/eve-celld-sandbox/src/worker/just-bash.ts:255-274 | stop and delete abort every active command and queue a barrier even when the queue is full |
| `CellWorker.SandboxCell.TurnExec` | packages/eve-celld-sandbox/src/worker/just-bash.ts:437-610 | one awaited stretch of a command: sync before it starts, abort wins until the commit, result and workspace commit together, answer after the last sync |
| `CellWorker.SandboxCell.Leave` | packages/eve-celld-sandbox/src/worker/just-bash.ts:599-610 | a command that ended leaves the queue and is answered with its own result after the last sync |
| `CellWorker.SandboxCell.TurnMutate` | packages/eve-celld-sandbox/src/worker/just-bash.ts:340-370 | one stretch of a file operation: check in the queue, compute, commit |
| `CellWorker.SandboxCell.TurnOpen` | packages/eve-celld-sandbox/src/worker/just-bash.ts:278-313 | an open checks the expected generation, creates a new one only if none lives, and lets commands in again |
| `CellWorker.SandboxCell.TurnBarrier` | packages/eve-celld-sandbox/src/worker/just-bash.ts:262-273 | a barrier checks its generation; a delete clears workspace and journal together, then syncs |
| `CellWorker.SandboxCell.Turn` | packages/eve-celld-sandbox/src/worker/just-bash.ts:191-202 | the head of the queue runs and nothing else |
| `CellSafety.CoreNext` | packages/eve-celld-sandbox/src/worker/just-bash.ts:191-202 | every event, crashes included, keeps the invariant that ties stored workspace, history, queue and journal together |
| `CellSafety.PruneKeepsFew` | packages/eve-celld-sandbox/src/worker/just-bash.ts:408-414 | pruning leaves at most 127 finished rows whatever their timestamps, and every unfinished one |
| `CellSafety.JournalBound` | packages/eve-celld-sandbox/src/worker/just-bash.ts:403-422 | the row of a newly accepted command is at most the 159th |
| `CellTheorems.JournalStaysSmall` | packages/eve-celld-sandbox/src/worker/just-bash.ts:403-422 | in every run the command table has at most 159 rows, in memory and on disk |
| `CellTheorems.Linearization` | packages/eve-celld-sandbox/src/worker/just-bash.ts:191-202 | in every run the stored workspace is the fold of the commits in the order their requests were accepted, each of which took effect; what is on disk is a prefix of them |
| `CellTheorems.StartsOnce` | packages/eve-celld-sandbox/src/worker/just-bash.ts:437-447 | a command starts at most once, only when its row is already on disk, and earlier starts under its id belong to rows the journal forgot for good |
| `CellTheorems.OwnResultIffCommitted` | packages/eve-celld-sandbox/src/worker/just-bash.ts:573-610 | in every run, what a command's own promise resolves to is decided once, and is completed exactly when the command is among the commits, in memory and on disk |
| `CellReplies.OtherInputIsRefused` | packages/eve-celld-sandbox/src/worker/just-bash.ts:387-395 | in every run, once a request was accepted under an id and while its row is there, other input under the id changes nothing and is refused as a conflict |
| `CellReplies.SameInputIsRepeated` | packages/eve-celld-sandbox/src/worker/just-bash.ts:396-397 | in every such run, the same input is answered with the stored result of that very request and changes nothing else |
| `CellReplies.SameInputJoins` | packages/eve-celld-sandbox/src/worker/just-bash.ts:398-406 | while the request has no result, the same input joins its execution, and a cancel aborts it |
| `CellOutcomes.CommandCompletes` | packages/eve-celld-sandbox/src/worker/just-bash.ts:437-610 | an accepted command whose effect is defined completes: its effect is the new workspace on disk and the only commit, and it is answered so |
| `CellOutcomes.CommandFails` | packages/eve-celld-sandbox/src/worker/just-bash.ts:560-610 | a command that fails leaves the workspace as it was |
| `CellOutcomes.CancelledInQueue` | packages/eve-celld-sandbox/src/worker/just-bash.ts:443-445 | a command cancelled while it is queued never starts |
| `CellOutcomes.AbortBeforeCommit` | packages/eve-celld-sandbox/src/worker/just-bash.ts:450-453 | a cancellation or timeout before the commit wins, even when the effect is computed |
| `CellOutcomes.CancelledBefore` | packages/eve-celld-sandbox/src/worker/just-bash.ts:411-435 | a cancellation that comes before its command is remembered, and the command is never run |
| `CellOutcomes.StopCancels` | packages/eve-celld-sandbox/src/worker/just-bash.ts:255-274 | a stop cancels what is running and keeps new commands out |
| `CellOutcomes.DeleteClears` | packages/eve-celld-sandbox/src/worker/just-bash.ts:262-273 | a delete clears workspace and journal on disk, and nothing of the generation is accepted or answered any more |
| `CellOutcomes.StaleStop` | packages/eve-celld-sandbox/src/worker/just-bash.ts:203-264 | a stop or delete of a generation that is gone does nothing |
| `CellOutcomes.OpenCreates` | packages/eve-celld-sandbox/src/worker/just-bash.ts:284-305 | opening a cell that is new or deleted creates one under a generation of its own |
| `CellOutcomes.OpenResumes` | packages/eve-celld-sandbox/src/worker/just-bash.ts:284-305 | opening a cell that lives keeps its workspace and generation and lets commands in again |
| `CellOutcomes.OpenIsRefused` | packages/eve-celld-sandbox/src/worker/just-bash.ts:284-284 | an open that expects another generation does nothing |
| `CellOutcomes.FileOperation` | packages/eve-celld-sandbox/src/worker/just-bash.ts:352-368 | a file operation commits its effect, or nothing if it fails |
| `CellOutcomes.FileIsRefused` | packages/eve-celld-sandbox/src/worker/just-bash.ts:203-221 | a file operation that meets a stopped cell or another generation does nothing |
| `CellOutcomes.FullQueue` | packages/eve-celld-sandbox/src/worker/just-bash.ts:191-194 | with 32 requests queued everything but a stop or delete is refused, and with fewer nothing is |
| `CellOutcomes.ResultsAreKept` | packages/eve-celld-sandbox/src/worker/just-bash.ts:413-418 | a result is forgotten a day after its command was accepted, and not before while at most 127 results are there |
| `CellOutcomes.NewerIsKeptLonger` | packages/eve-celld-sandbox/src/worker/just-bash.ts:413-418 | of two results of the last day the later one is kept longer |
| `CellOutcomes.CrashKeepsDisk` | packages/eve-celld-sandbox/src/worker/just-bash.ts:140-165 | a crash keeps exactly what was on disk, with unfinished commands interrupted |
| `CellOutcomes.StatusAnswers` | packages/eve-celld-sandbox/src/worker/just-bash.ts:231-241 | a status request gives the stored result without waiting for the queue |
| `CellOutcomes.FreshTakesNothing` | packages/eve-celld-sandbox/src/worker/just-bash.ts:203-207 | a cell that was never opened takes no command and answers no status request |
| `CellJournal.TracedNext` | packages/eve-celld-sandbox/src/worker/just-bash.ts:437-447 | every event keeps the journal knowing every command it started or queued |
| `CellJournal.SettledNext` | packages/eve-celld-sandbox/src/worker/just-bash.ts:573-610 | every event keeps each command's own result decided once and completed exactly when the command is among the commits |
| `CellAnswers.OrderlyNext` | packages/eve-celld-sandbox/src/worker/just-bash.ts:573-610 | every event but a delete that a pending open undoes keeps rows, answers and commits in agreement |
| `CellTheorems.CompletedIffCommitted` | packages/eve-celld-sandbox/src/worker/just-bash.ts:573-610 | in every run without such a delete a row says completed exactly when its command is among the commits, in memory and on disk |
| `CellTheorems.AnswersAreFinal` | packages/eve-celld-sandbox/src/worker/just-bash.ts:387-402 | in such runs every later answer for a command equals the first, journal and disk keep it across crashes, and it was completed exactly when the command is committed |
| `CellTheorems.StartsUnderItsRow` | packages/eve-celld-sandbox/src/worker/just-bash.ts:403-447 | in such runs a command starts under the row it was accepted with, so an id starts once while its row remains |
| `CellRace.DeleteOrphans` | packages/eve-celld-sandbox/src/worker/just-bash.ts:262-273 | a delete leaves a queued command without its row exactly when a command is queued behind it |
| `CellRace.DeleteIsSafeIffNotUndone` | packages/eve-celld-sandbox/src/worker/just-bash.ts:255-313 | a delete keeps answers final, completed rows committed and commands under their rows, each in every run that goes on without another such delete, if and only if no pending open reopens the generation before a queued delete of it |
| `CellRace.OldCommandCommits` | packages/eve-celld-sandbox/src/worker/just-bash.ts:255-313 | after such a delete any command of the old generation may run behind it and commit in the next generation |
| `CellRace.UndoneDeleteBreaksAnswers` | packages/eve-celld-sandbox/src/worker/just-bash.ts:255-313 | after such a delete any id can be answered both failed and timed out for one command |
| `CellRace.UndoneDeleteBreaksLedger` | packages/eve-celld-sandbox/src/worker/just-bash.ts:255-313 | after such a delete a row can say completed for a command that never ran |
| `CellRace.RaceIsReachable` | packages/eve-celld-sandbox/src/worker/just-bash.ts:255-313 | three requests to an empty cell lead to a state in which a delete would be undone |
| `CellRace.RaceBreaksPromises` | packages/eve-celld-sandbox/src/worker/just-bash.ts:255-313 | from an empty cell, any command can come to be answered both failed and timed out, by a run with such a delete |
| `Workspace.Validate` | packages/eve-celld-sandbox/src/worker/workspace.ts:17-50 | accepts exactly the lists with distinct valid paths, sizes within the limits, empty directories and a root |
| `WorkspacePaths.ResolvePath` | packages/eve-celld-sandbox/src/protocol.ts:154-163 | the loop over the parts of a path, with dot-dots that take a part away |
| `WorkspacePaths.ResolvedIsPlain` | packages/eve-celld-sandbox/src/protocol.ts:154-163 | a resolved path has no empty, dot or dot-dot part, and resolving it again changes nothing |
| `WorkspacePaths.ValidPathIff` | packages/eve-celld-sandbox/src/worker/workspace.ts:11-27 | the paths that are taken are exactly the texts that resolve to themselves, under /workspace, without a NUL, of at most 1024 bytes |
| `WorkspacePaths.PathsAreTexts` | packages/eve-celld-sandbox/src/worker/agentfs.ts:154-164 | different texts are different paths, and the length that saving sorts by is that of the text |
| `WorkspacePaths.AcceptedIff` | packages/eve-celld-sandbox/src/worker/workspace.ts:17-50 | in terms of what is sent, a list is accepted exactly when no path comes twice, every path is durable, files are at most 1 MiB and 4 MiB in all, directories are empty, the JSON array is at most 6 MiB less 1 KiB, and the root is a directory |
| `AgentFs.AgentFsWorkspace.Bounds` | packages/eve-celld-sandbox/src/worker/agentfs.ts:77-97 | succeeds exactly when no stored file and not all of them together exceed the limits |
| `AgentFs.AgentFsWorkspace.Visit` | packages/eve-celld-sandbox/src/worker/agentfs.ts:111-141 | one path leaves the work list: it is read exactly as stored and its children join the list, or it makes the tree unloadable |
| `AgentFs.AgentFsWorkspace.ReadTree` | packages/eve-celld-sandbox/src/worker/agentfs.ts:108-141 | the work list ends, visits every stored path once, and fails only on links, devices or sizes that do not match |
| `AgentFs.AgentFsWorkspace.Load` | packages/eve-celld-sandbox/src/worker/agentfs.ts:99-145 | succeeds exactly on loadable trees and returns exactly the stored paths |
| `AgentFs.AgentFsWorkspace.RemoveStale` | packages/eve-celld-sandbox/src/worker/agentfs.ts:151-161 | with a closed snapshot, longest-first removal leaves exactly the paths the snapshot keeps with their kind |
| `AgentFs.AgentFsWorkspace.Build` | packages/eve-celld-sandbox/src/worker/agentfs.ts:162-171 | shortest-first creation succeeds and gives every path of a closed snapshot its kind and bytes |
| `AgentFs.AgentFsWorkspace.Label` | packages/eve-celld-sandbox/src/worker/agentfs.ts:174-185 | writes mode and time of every entry and touches nothing else |
| `AgentFs.AgentFsWorkspace.Save` | packages/eve-celld-sandbox/src/worker/agentfs.ts:149-186 | a differential save of a valid closed snapshot over any loadable tree leaves exactly what writing it from scratch leaves |
| `AgentFs.AgentFsWorkspace.Transact` | packages/eve-celld-sandbox/src/worker/agentfs.ts:147-149 | in the caller's transaction a failed save leaves the stored tree as it was |
| `AgentFs.AgentFsWorkspace.SaveThenLoad` | packages/eve-celld-sandbox/src/worker/agentfs.ts:99-186 | saving and loading returns exactly the snapshot if and only if it is valid, closed under parents, has only times that are 2^33 milliseconds or more from 1970 or are what a load returns for some second and nanosecond, and the tree before could be loaded |
| `Timestamps.ModernTimesSurvive` | packages/eve-celld-sandbox/src/worker/agentfs.ts:136-177 | computed in doubles, every time 2^33 milliseconds (99.4 days) or more from 1970 comes back exactly, whatever its fraction |
| `Timestamps.WholeMillisecondsSurvive` | packages/eve-celld-sandbox/src/worker/agentfs.ts:136-177 | computed in doubles, every whole number of milliseconds within 140,000 years of 1970 comes back exactly |
| `Timestamps.FractionsAreLost` | packages/eve-celld-sandbox/src/worker/agentfs.ts:136-177 | a time less than 0.487 nanoseconds off a whole millisecond comes back as that millisecond |
| `Timestamps.ComesBackAs` | packages/eve-celld-sandbox/src/worker/agentfs.ts:136-177 | a time within 0.487 nanoseconds of a whole number of nanoseconds comes back as that number does |
| `Timestamps.ComesBackIff` | packages/eve-celld-sandbox/src/worker/agentfs.ts:136-177 | a time comes back if and only if it is 2^33 milliseconds or more from 1970 or is what a load returns for some second and nanosecond in it |
| `Timestamps.SurvivesIffReturned` | packages/eve-celld-sandbox/src/worker/agentfs.ts:136-177 | within 140,000 years of 1970 the times that come back are exactly those that a load can return |
| `Timestamps.ReloadedTwice` | packages/eve-celld-sandbox/src/worker/agentfs.ts:136-177 | saving what was loaded changes no time any more |
| `Timestamps.DayIsNotKept` | packages/eve-celld-sandbox/src/worker/agentfs.ts:136-177 | the double one day after 1970 and 2^-26 milliseconds comes back as the day |
| `StoredTimes.SnapshotComesBack` | packages/eve-celld-sandbox/src/worker/agentfs.ts:131-186 | a valid snapshot is loaded from the store exactly as it was written if and only if each of its times is of that kind |
| `StoredTimes.ListingComesBack` | packages/eve-celld-sandbox/src/worker/agentfs.ts:131-137 | what is stored reads back as itself if and only if each of its times is of that kind |
| `AgentFsTree.EntryRoundTrip` | packages/eve-celld-sandbox/src/worker/agentfs.ts:131-185 | kind, bytes and mode of an entry always come back, and its time as the split into seconds and nanoseconds leaves it |
| `AgentFsTree.FullWriteLoads` | packages/eve-celld-sandbox/src/worker/agentfs.ts:142-144 | a stored valid snapshot can be loaded again exactly when the entries, with the times that come back, fit the size limit of a snapshot |
| `AgentFsTree.LoadableIsStored` | packages/eve-celld-sandbox/src/worker/agentfs.ts:98-144 | what can be loaded is exactly what holds some valid snapshot that is closed under parents, so no links, devices or directories with bytes |
| `AgentFsTree.OnlyClosedIsStored` | packages/eve-celld-sandbox/src/worker/workspace.ts:46-50 | no tree stores a snapshot that is not closed under parents, although the validation accepts such snapshots |
| `AgentFsTree.OrphanPassesValidation` | packages/eve-celld-sandbox/src/worker/workspace.ts:46-50 | the validation accepts a snapshot of the root and a file in a directory that is not listed |
| `ContainerCell.Cell.constructor` | packages/eve-celld-sandbox/src/worker/container.ts:70-90 | a restart forgets what is in flight and the queue; an unfinished command, running or queued, marks the build failed |
| `ContainerCell.Cell.OnStart` | packages/eve-celld-sandbox/src/worker/container.ts:140-146 | a starting container is a new incarnation and not ready |
| `ContainerCell.Cell.Accept` | packages/eve-celld-sandbox/src/worker/container.ts:298-389 | a command for a checked build is journaled and queued behind the others |
| `ContainerCell.Cell.AppendRecipe` | packages/eve-celld-sandbox/src/worker/container.ts:154-165 | the recipe takes the step at its end or, if it does not fit, stays as it was |
| `ContainerCell.Cell.EndCommand` | packages/eve-celld-sandbox/src/worker/container.ts:361-375 | a completed command is logged with its exit code; a command that did not complete or does not fit marks the build failed |
| `ContainerCell.Cell.EndFile` | packages/eve-celld-sandbox/src/worker/container.ts:571-578 | an applied file operation is logged; a failed or oversized one marks the build failed |
| `ContainerCell.Cell.ReadRecipe` | packages/eve-celld-sandbox/src/worker/container.ts:449-472 | publishing reads the recipe only from a ready, running build that is not marked failed |
| `ContainerCell.Cell.Initialize` | packages/eve-celld-sandbox/src/worker/container.ts:501-534 | opening becomes ready exactly when every replayed step ends as it was logged, with the container then holding what the replacements during the replay left of the steps; otherwise it destroys the container |
| `ContainerCell.Cell.Replay` | packages/eve-celld-sandbox/src/worker/container.ts:512-527 | the loop runs every step or stops at the first that ends differently, in a container that may be replaced after any step |
| `BuildRecipe.ReplayHoldsAll` | packages/eve-celld-sandbox/src/worker/container.ts:512-528 | a session that becomes ready holds the whole recipe on top of what was there if and only if the container was never replaced while it held anything |
| `BuildRecipe.OrderedNext` | packages/eve-celld-sandbox/src/worker/container.ts:358-379 | every event keeps the recipe a subsequence of what completed in the current container |
| `BuildRecipe.PublishedStepsCompleted` | packages/eve-celld-sandbox/src/worker/container.ts:449-472 | in every run a published recipe lists, in order, steps that completed since the current container started |
| `BuildRecipe.FaithfulNext` | packages/eve-celld-sandbox/src/worker/container.ts:501-534 | every undisturbed event keeps recipe and container in exact agreement unless the build is marked failed |
| `BuildRecipe.PublishedIsFaithful` | packages/eve-celld-sandbox/src/worker/container.ts:449-472 | in every undisturbed run, what is published is exactly what completed in the container |
| `BuildRecipe.ExactIffUndisturbed` | packages/eve-celld-sandbox/src/worker/container.ts:358-379 | an event leaves nothing but exact publishing for the rest of every undisturbed run if and only if it is no restart between a step and its unremembered log entry, no replacement under a step that has not happened yet, and no start of a command in a running container that was not opened |
| `BuildOutcomes.BuildPublishes` | packages/eve-celld-sandbox/src/worker/container.ts:357-472 | in an open build every command and file operation that completes is logged, and the log is what is published |
| `BuildOutcomes.QueueKeepsOrder` | packages/eve-celld-sandbox/src/worker/container.ts:379-379 | commands accepted before any of them ran are run and logged in the order they came |
| `BuildOutcomes.LostForGood` | packages/eve-celld-sandbox/src/worker/container.ts:449-472 | in every run, once a step is missing from the log or the container of the log is gone, nothing is published until the build is opened anew |
| `BuildOutcomes.LossesAreSeen` | packages/eve-celld-sandbox/src/worker/container.ts:361-375 | a step that fails or does not fit the log, the end of the container, and a restart before a command has its result are such losses |
| `BuildOutcomes.InterruptedCommandIsSeen` | packages/eve-celld-sandbox/src/worker/container.ts:78-89 | from its request on, a command that a restart interrupts marks the build |
| `BuildOutcomes.RestartBetweenSteps` | packages/eve-celld-sandbox/src/worker/container.ts:70-90 | between steps a restart loses nothing |
| `BuildOutcomes.OpenStartsEmpty` | packages/eve-celld-sandbox/src/worker/container.ts:485-528 | opening a build without a ready container gives an open build with an empty log in a new one |
| `BuildOutcomes.FreshTakesNothing` | packages/eve-celld-sandbox/src/worker/container.ts:128-139 | a build that was never opened takes nothing |
| `BuildOutcomes.StopThenOpen` | packages/eve-celld-sandbox/src/worker/container.ts:402-417 | a stopped build takes no step and publishes nothing; opening it goes on where it was |
| `BuildOutcomes.OneAtATime` | packages/eve-celld-sandbox/src/worker/container.ts:103-107 | while a step is under way no other starts, and the container is not destroyed |
| `BuildRecipe.RestartLosesStep` | packages/eve-celld-sandbox/src/worker/container.ts:78-89 | a controller restart loses a step exactly when one is done but not yet logged and no journal row of an unfinished command remembers it |
| `BuildRecipe.OpenIsFaithful` | packages/eve-celld-sandbox/src/worker/container.ts:485-528 | reopening starts a faithful recipe exactly when nothing has happened in the running container |
| `BuildRecipe.RestartPublishesLess` | packages/eve-celld-sandbox/src/worker/container.ts:571-578 | a concrete run in which a restart during a file write lets a build publish less than its container holds |
| `BuildRecipe.ReplacementPublishesLess` | packages/eve-celld-sandbox/src/worker/container.ts:485-528 | a concrete run in which a container replaced during a file write does the same |
| `Installer.ChangeOf` | packages/eve-openai-plugins/src/importer.ts:189-201 | one generated path is added, updated, unchanged or in conflict |
| `Installer.PlanGenerated` | packages/eve-openai-plugins/src/importer.ts:189-202 | every generated path gets exactly one change or conflict |
| `Installer.Inspect` | packages/eve-openai-plugins/src/importer.ts:203-212 | of the paths looked at, the present ones are as recorded and the changed ones are not; missing ones are neither |
| `Installer.Project.Prepare` | packages/eve-openai-plugins/src/importer.ts:187-212 | the plan covers exactly the generated and the owned paths |
| `Installer.Project.Apply` | packages/eve-openai-plugins/src/importer.ts:258-287 | an import succeeds exactly when the id is free or of the same plugin and everything in its way is what it installed; it changes or deletes nothing else that was there, and leaves files and lockfile exactly as planned; otherwise nothing changes |
| `Installer.Project.ApplyThenPlan` | packages/eve-openai-plugins/src/importer.ts:258-287 | planning the same source after a successful import finds only unchanged files |
| `Installer.Project.ApplyThenRemove` | packages/eve-openai-plugins/src/importer.ts:258-330 | a plugin imported for the first time can always be removed again, which restores the lockfile and every file but a newly created access policy |
| `Installer.Project.Check` | packages/eve-openai-plugins/src/importer.ts:289-304 | reports no problem exactly when the access policy exists where needed and every recorded file is there with its hash |
| `Installer.Project.Remove` | packages/eve-openai-plugins/src/importer.ts:306-330 | a removal succeeds exactly when the plugin is installed and each of its files that is still there is as it was installed; it then deletes exactly these, and otherwise nothing |
| `Installation.ApplyKeepsConsistent` | packages/eve-openai-plugins/src/importer.ts:258-287 | consistency, with ownership disjoint across plugins, is preserved by every conflict-free plan |
| `Installation.ApplyFrame` | packages/eve-openai-plugins/src/importer.ts:265-281 | no file outside the plugin's old and new paths and the access policy changes |
| `Installation.ConflictsAreForeign` | packages/eve-openai-plugins/src/importer.ts:189-212 | the conflicts are exactly the paths of the old or new version where something is that is not the file installed there |
| `Installation.PlanSays` | packages/eve-openai-plugins/src/importer.ts:189-212 | without conflicts, what is not there is added, installed files with new content are updated, and installed files no longer generated are deleted |
| `Installation.ForeignFilesStay` | packages/eve-openai-plugins/src/importer.ts:195-210 | nothing that was there is changed or deleted unless it is the very file that was installed |
| `Installation.ImportLeaves` | packages/eve-openai-plugins/src/importer.ts:258-287 | after an import the new version is there, and nothing of the old version that is not in it |
| `Installation.OthersUntouched` | packages/eve-openai-plugins/src/importer.ts:189-212 | another plugin's file is in no conflict-free plan |
| `Installation.ReplanIsUnchanged` | packages/eve-openai-plugins/src/importer.ts:189-212 | after a conflict-free import the same source plans exactly its own paths, all unchanged |
| `Installation.RemoveKeepsConsistent` | packages/eve-openai-plugins/src/importer.ts:321-328 | removing one plugin's files and entry keeps the others consistent |
| `Installation.ApplyThenRemove` | packages/eve-openai-plugins/src/importer.ts:258-330 | removing what a conflict-free first import planned gives back the files and lockfile from before it |
| `Installation.HistoryKeeps` | packages/eve-openai-plugins/src/importer.ts:258-330 | any sequence of successful imports and removals keeps a consistent installation consistent and never changes a file that no plugin owns or generates; with edits by the user in between, a file that no lockfile entry has on record as it is stays as it is |
| `Crc32.MaskIsStep` | packages/eve-aws-lambda-microvms/src/deterministic-zip.ts:88-90 | the masked shift of the inner loop is the branch on the low bit |
| `Crc32.EightSteps` | packages/eve-aws-lambda-microvms/src/deterministic-zip.ts:86-91 | eight bit steps on a 32-bit word are one step of the byte table |
| `Crc32.ShiftByte` | packages/eve-aws-lambda-microvms/src/deterministic-zip.ts:86-91 | the inner loop absorbs one byte as the table does |
| `Crc32.Compute` | packages/eve-aws-lambda-microvms/src/deterministic-zip.ts:84-93 | the nested bit loops compute the byte-wise table CRC of section 8 of RFC 1952 |
| `Zip.NormalizedIsPlain` | packages/eve-aws-lambda-microvms/src/deterministic-zip.ts:73-82 | a normalized path is relative, without backslashes or empty, dot and dot-dot segments, and normalizing again changes nothing |
| `ZipPaths.NormalizeIff` | packages/eve-aws-lambda-microvms/src/deterministic-zip.ts:73-82 | slashes and backslashes in front are dropped and the other backslashes become slashes; what is left is refused exactly when it is nothing or a piece of it between slashes is empty, a dot or a dot-dot |
| `ZipPaths.ModesOfFiles` | packages/eve-aws-lambda-microvms/src/deterministic-zip.ts:53-53 | a file without a mode gets that of a regular file which its owner may write and all may read |
| `Zip.WriteUInt` | packages/eve-aws-lambda-microvms/src/deterministic-zip.ts:24-34 | writes a little-endian number exactly when it fits its width |
| `Zip.WriteRecord` | packages/eve-aws-lambda-microvms/src/deterministic-zip.ts:23-34 | a buffer filled field by field is the record, exactly when every field fits |
| `Zip.WriteFile` | packages/eve-aws-lambda-microvms/src/deterministic-zip.ts:18-57 | one file gives its local part and its directory part, exactly when its numbers fit |
| `Zip.WriteFiles` | packages/eve-aws-lambda-microvms/src/deterministic-zip.ts:14-58 | the loop writes every local part and the directory with the right offsets |
| `Zip.CreateZip` | packages/eve-aws-lambda-microvms/src/deterministic-zip.ts:12-71 | succeeds exactly when all paths are valid and everything fits its field, and then returns the archive of the files in path order |
| `ZipRoundTrip.ArchiveRoundTrip` | packages/eve-aws-lambda-microvms/src/deterministic-zip.ts:12-71 | reading the end record, the directory and the local files it points to recovers every member in order, with agreeing sizes, offsets and checksums |
| `ZipRoundTrip.ArchiveInjective` | packages/eve-aws-lambda-microvms/src/deterministic-zip.ts:12-71 | equal archives come from equal member lists |
| `ZipBytes.LocalBytes` | packages/eve-aws-lambda-microvms/src/deterministic-zip.ts:23-35 | the local part of a file byte by byte |
| `ZipBytes.CentralBytes` | packages/eve-aws-lambda-microvms/src/deterministic-zip.ts:37-55 | the directory part of a file byte by byte |
| `ZipBytes.EndBytes` | packages/eve-aws-lambda-microvms/src/deterministic-zip.ts:60-70 | the end record byte by byte |
| `ZipBytes.CheckValue` | packages/eve-aws-lambda-microvms/src/deterministic-zip.ts:84-93 | the checksum of the digits 1 to 9 is the published check value of this CRC |
| `Zip.WrittenArchiveReadsBack` | packages/eve-aws-lambda-microvms/src/deterministic-zip.ts:12-71 | the written archive reads back as the input files in path order |
| `Zip.InputOrderIndependence` | packages/eve-aws-lambda-microvms/src/deterministic-zip.ts:13-13 | every order of the input files gives the same outcome, archive bytes or refusal, if and only if files that the comparison cannot tell apart have the same name, content and mode |
| `JsonText.UnbodyBody` | packages/eve-agent-builder/extension/lib/service.ts:350-350 | a quoted string determines its code units, lone surrogates included, and where it ends |
| `JsonStrings.BodyIsStrict` | packages/eve-agent-builder/extension/lib/service.ts:350-350 | whatever the string, its text has no control characters and every surrogate in it is paired |
| `JsonStrings.CleanStays` | packages/eve-agent-builder/extension/lib/service.ts:350-350 | a well-formed string without quotes, backslashes and control characters stays as it is |
| `JsonStrings.ShortEscapes` | packages/eve-agent-builder/extension/lib/service.ts:350-350 | the short escapes are those of the JSON grammar |
| `JsonStrings.OthersByNumber` | packages/eve-agent-builder/extension/lib/service.ts:350-350 | every other control character and every lone surrogate is written as four lower-case hexadecimal digits |
| `CanonicalJson.PrintApart` | packages/eve-agent-builder/extension/lib/service.ts:348-374 | no printed value can run into another: followed by a delimiter, two texts are equal or differ |
| `CanonicalJson.EqualPrintsAreSame` | packages/eve-agent-builder/extension/lib/service.ts:348-374 | equal texts come from values equal up to member order, undefined members and the sign of zero |
| `CanonicalJson.SamePrintsEqual` | packages/eve-agent-builder/extension/lib/service.ts:365-369 | such values print to the same text |
| `CanonicalJson.Unambiguous` | packages/eve-agent-builder/extension/lib/service.ts:348-374 | two printable trees print to the same text if and only if they are equal in that sense |
| `JsonGrammar.PrintsJson` | packages/eve-agent-builder/extension/lib/service.ts:348-374 | what is printed is the JSON text of the value, with every defined member once and keys in ascending order of code units |
| `JsonGrammar.PrintsExactly` | packages/eve-agent-builder/extension/lib/service.ts:348-374 | exactly the values are printed that JSON can write |
| `CanonicalGraph.CyclesAreRefused` | packages/eve-agent-builder/extension/lib/service.ts:348-374 | a value with shared or cyclic references prints to a text exactly when it unfolds to a finite tree with that text |
| `CanonicalGraph.Printer.Canonical` | packages/eve-agent-builder/extension/lib/service.ts:348-374 | the recursion over the mutable set of open values, which it restores on success |
| `CanonicalGraph.Printer.Items` | packages/eve-agent-builder/extension/lib/service.ts:355-360 | array items print in order under the same set |
| `CanonicalGraph.Printer.Fields` | packages/eve-agent-builder/extension/lib/service.ts:361-369 | undefined members are dropped and the others print under the same set |
| `Tar.ParseArchive` | packages/eve-openai-plugins/src/source.ts:168-218 | the block loop ends, and returns the entries of the pass or its first error |
| `Tar.AcceptedFilesAreSlices` | packages/eve-openai-plugins/src/source.ts:174-218 | every accepted file is exactly a slice of the archive after its header; slices are disjoint and in order, sizes within the limits, paths relative and plain |
| `TarRoundTrip.DecodeBlock` | packages/eve-openai-plugins/src/source.ts:177-180 | a ustar header block decodes to the name, prefix, size and type it was built from |
| `TarRoundTrip.OctalParses` | packages/eve-openai-plugins/src/source.ts:128-134 | an octal size field gives back its number |
| `TarRoundTrip.ArchiveParsesBack` | packages/eve-openai-plugins/src/source.ts:168-218 | an archive built from regular files in the ustar format, followed by anything that ends an archive, parses back to exactly those files |
| `TarRules.SizeIsRead` | packages/eve-openai-plugins/src/source.ts:128-134 | a size is read after any spaces from octal digits up to what is none, and refused from 2^53 on |
| `TarRules.PlusIsPassed` | packages/eve-openai-plugins/src/source.ts:131-131 | a plus sign before the digits changes nothing |
| `TarRules.BlankSizeIsZero` | packages/eve-openai-plugins/src/source.ts:128-130 | a blank size is zero |
| `TarRules.OtherSizesAreRefused` | packages/eve-openai-plugins/src/source.ts:128-134 | a size that starts with anything else, or is negative, is refused |
| `TarRules.PaxRecordIsRead` | packages/eve-openai-plugins/src/source.ts:136-152 | a record of an extended header whose length counts all of it sets its key to its value |
| `TarRules.PaxOverrunIsRefused` | packages/eve-openai-plugins/src/source.ts:143-145 | a record longer than what is left is refused |
| `TarRules.PlainPathIsTaken` | packages/eve-openai-plugins/src/source.ts:206-207 | a path of plain segments is taken as it is |
| `TarRules.UpwardPathIsRefused` | packages/eve-openai-plugins/src/source.ts:206-207 | a path with a segment that goes up is refused |
| `TarRules.BadPathIsRefused` | packages/eve-openai-plugins/src/source.ts:206-207 | empty and absolute paths and paths with a NUL are refused |
| `TarRules.NamesAreKept` | packages/eve-openai-plugins/src/source.ts:191-194 | a long name, without its NULs, names the next entry |
| `TarRules.ExtendedHeaders` | packages/eve-openai-plugins/src/source.ts:186-190 | an extended header replaces the records in force, a global one adds to them |
| `TarRules.EntryIsNamed` | packages/eve-openai-plugins/src/source.ts:199-201 | an entry is named by the extended header, else by the long name, else by its own header, and what named it does not name the next |
| `TarRules.EntryIsKept` | packages/eve-openai-plugins/src/source.ts:205-216 | directories and regular files are kept under their safe paths, files within 5 MiB and 25 MiB in all; other kinds are passed over |
| `TarRules.LinksAreRefused` | packages/eve-openai-plugins/src/source.ts:195-197 | links of every kind are refused |
| `TarRules.OutsideIsRefused` | packages/eve-openai-plugins/src/source.ts:202-204 | entries outside package/ are refused |
| `TarRules.TrailingSlash` | packages/eve-openai-plugins/src/source.ts:205-205 | one slash at the end of a name is dropped |
| `TarRules.ZeroBlocksEnd` | packages/eve-openai-plugins/src/source.ts:174-176 | an archive ends at the first block of zeros, whatever follows |
| `TarRules.TruncatedIsRefused` | packages/eve-openai-plugins/src/source.ts:182-183 | a file whose bytes are not all there is refused |
| `Retention.TakePrefix` | packages/eve-openai-compaction/src/index.ts:388-398 | the longest front of whole characters within the bytes |
| `Retention.TakeSuffix` | packages/eve-openai-compaction/src/index.ts:400-413 | the longest back of whole characters within the bytes |
| `Retention.TruncateMiddle` | packages/eve-openai-compaction/src/index.ts:376-387 | text within the budget unchanged, otherwise front, marker and back |
| `Retention.ShortenedText` | packages/eve-openai-compaction/src/index.ts:376-387 | front and back do not meet and take at most four bytes per token together |
| `Retention.MarkerSays` | packages/eve-openai-compaction/src/index.ts:386-386 | the marker says how many tokens are missing: the bytes left out, in quarters rounded up |
| `Retention.CostOf` | packages/eve-openai-compaction/src/index.ts:326-332 | a message costs what its texts count, a quarter of their bytes rounded up each, and never nothing |
| `Retention.FewestBytes` | packages/eve-openai-compaction/src/index.ts:372-374 | a character counts as many bytes as UTF-8 needs for it |
| `Retention.KeptPartsInOrder` | packages/eve-openai-compaction/src/index.ts:342-360 | parts are kept in their order, each as it was or as one text shortened |
| `Retention.TruncateParts` | packages/eve-openai-compaction/src/index.ts:342-360 | the loop over the parts of one message |
| `Retention.KeptPartsShape` | packages/eve-openai-compaction/src/index.ts:342-360 | every medium stays; of the texts a front within the budget stays, then at most one shortened text |
| `Retention.TruncateUserMessage` | packages/eve-openai-compaction/src/index.ts:334-361 | a message shortened as text or part by part |
| `Retention.ShortenedNeverVanishes` | packages/eve-openai-compaction/src/index.ts:317-318 | a message too long for what is left is never dropped entirely |
| `Retention.SelectRetained` | packages/eve-openai-compaction/src/index.ts:293-324 | of the positions of what people wrote, in the order of the conversation, the messages at the last ones are kept, in order, as many as the budget allows, and before them what still fits of the one before |
| `Retention.NewestThatFit` | packages/eve-openai-compaction/src/index.ts:308-320 | the newest messages that the budget pays for are kept whole, no earlier ones could be paid for as well, and a shortened one stands before them exactly when there is an earlier one and some budget left |
| `Retention.CostsAddUp` | packages/eve-openai-compaction/src/index.ts:312-320 | the cost of messages is the sum of their costs |
| `Retention.KeptIsUnique` | packages/eve-openai-compaction/src/index.ts:293-324 | messages and budget leave exactly one such list, so the selection is determined |
| `Transfer.Controller.BeginWrite` | packages/eve-aws-lambda-microvms/src/controller/controller.py:432-438 | a new write id with an empty buffer at offset zero |
| `Transfer.Controller.WriteChunk` | packages/eve-aws-lambda-microvms/src/controller/controller.py:441-449 | a chunk is appended exactly when its id is known and its offset is the expected one |
| `Transfer.Controller.CommitWrite` | packages/eve-aws-lambda-microvms/src/controller/controller.py:452-472 | a commit moves the buffered bytes to their path, or drops them if the move fails |
| `Transfer.Controller.AbortWrite` | packages/eve-aws-lambda-microvms/src/controller/controller.py:475-482 | an abort forgets the write and nothing else |
| `Transfer.Controller.ReadFile` | packages/eve-aws-lambda-microvms/src/controller/controller.py:413-429 | a ranged read gives the bytes at the offset and whether they are the last |
| `Transfer.Controller.HandleOthers` | packages/eve-aws-lambda-microvms/src/controller/controller.py:413-482 | other clients' requests, in any order |
| `TransferProtocol.ForeignKeeps` | packages/eve-aws-lambda-microvms/src/controller/controller.py:441-482 | requests of other clients to other write ids and paths change neither this client's buffer nor its file |
| `TransferProtocol.WriteCommits` | packages/eve-aws-lambda-microvms/src/controller-client.ts:286-311 | whatever other clients send before each request, the chunks and the commit leave exactly the bytes at the path |
| `TransferProtocol.AbortComesTooLate` | packages/eve-aws-lambda-microvms/src/controller-client.ts:312-317 | an abort after the commit leaves exactly the bytes at the path |
| `TransferProtocol.ChangesAreMarked` | packages/eve-aws-lambda-microvms/src/controller/controller.py:452-472 | whatever changes a file marks that there is something to capture |
| `TransferProtocol.OnlyChangesMark` | packages/eve-aws-lambda-microvms/src/controller/controller.py:452-472 | only a commit or a removal marks it |
| `TransferProtocol.ReadsAddUp` | packages/eve-aws-lambda-microvms/src/controller/controller.py:413-428 | reads that start where the one before ended give the front of the file without a gap, whatever their limits |
| `TransferProtocol.LastReadIsComplete` | packages/eve-aws-lambda-microvms/src/controller/controller.py:428-428 | a read says that it is complete exactly when it asks beyond the end of the file |
| `TransferProtocol.ReadIsRefused` | packages/eve-aws-lambda-microvms/src/controller/controller.py:628-635 | limits that are zero or over 4 MiB are refused, and files that are not there are not found |
| `Transfer.SendChunk` | packages/eve-aws-lambda-microvms/src/controller-client.ts:294-307 | one chunk extends the buffered prefix if it is answered; a failure aborts and leaves the file |
| `Transfer.SendCommit` | packages/eve-aws-lambda-microvms/src/controller-client.ts:308-317 | the commit puts all the bytes in place exactly if it arrives and lands, and succeeds exactly if it is answered as well |
| `Transfer.WriteFile` | packages/eve-aws-lambda-microvms/src/controller-client.ts:286-318 | the client loop, with every request or response possibly lost: the path holds exactly the bytes if the commit took effect and what it held before otherwise, and the client is told success exactly when the commit took effect and was answered |
| `Transfer.UnansweredCommit` | packages/eve-aws-lambda-microvms/src/controller-client.ts:306-317 | for every path and bytes, a write whose commit is served but not answered fails and leaves its bytes in place |
| `Transfer.ReadFile` | packages/eve-aws-lambda-microvms/src/controller-client.ts:152-177 | the client loop ends and returns exactly the file, also for empty files and exact multiples of the chunk size |
| `Transfer.WriteThenRead` | packages/eve-aws-lambda-microvms/src/controller-client.ts:152-318 | what is read back is what was written |

## Left out

Assumptions of the session model:
- Conditional writes are linearizable and delivered at most once, the clock is shared and monotone,
  identifiers are fresh, hashing is injective, and a launch call's VM is determined by its client token.
- A handle that was captured, stopped or deleted, or whose delete failed, is outside `NoLiveHandleLosesItsVm`:
  the code gives no guarantee there.
- The statements of `SessionOutcomes` are about processes whose requests are answered in time and that nobody
  disturbs; that a disturbed process gets anywhere, or that a late VM is always found, is not claimed.

Assumptions of the cell model:
- The platform holds outgoing replies until the writes before them are durable: a reply that the code sends
  without a sync is heard only after the next flush, or never if a crash comes first.
- A file operation that a build controller's restart interrupts happened before the restart or never.
- What a build controller writes to its storage counts as durable at once: a crash between a recipe entry or a
  failure mark and the storage's flush loses it as well, with the effect of a restart just before the write.

Weaker than the source or the design might suggest:
- CompletedIffCommitted: runs in which no delete is requested that a pending open undoes, because the code
  breaks the promise exactly then (`CellRace.DeleteIsSafeIffNotUndone`).
- AnswersAreFinal: the same restriction, for the same reason.
- StartsUnderItsRow: the same restriction, for the same reason; `StartsOnce` holds in every run.
- OrderlyNext: the same restriction, for the same reason.
- PublishedIsFaithful: undisturbed runs, because the code breaks the promise exactly with a disturbance
  (`BuildRecipe.ExactIffUndisturbed`).
- OnVerified: whether a launched VM matches its request, and whether a delete still has a VM to terminate, are
  free choices of the caller, so every outcome is covered.
- Bounds: the stored chunks of a file are its bytes, so the separate limit on their total is the limit on the
  total size.
- SaveThenLoad: times of magnitude 2^1022 or more are not considered, because the products of the split may
  overflow there.
- ReadTree: the tree has no hard links, which the source refuses by their link count.
- AuthorityNamesUploadedCheckpoints: a delete removes the object of the checkpoint that it erased; this
  removal is not modelled, so the statement about documents that are no longer current does not extend to
  after it.
- CyclesAreRefused: arrays have no holes. The code prints a hole as nothing, so an array of one hole prints
  like the empty array.
- ParseArchive: size fields are trimmed of the ASCII spaces only, where the code trims every Unicode space.
- ReadRecipe: the generation and incarnation of the request are taken to match.
- ApplyKeepsConsistent: consistency includes that no plugin records the access policy path as its own file;
  the planner never generates it.
- StaleWriteIsRejected: says that a stale write changes nothing, not when the writer learns of it.

Not modelled, sessions:
- `SessionRuntime.Runtime` takes the awaits as the points where its methods are called; the interleaving is in
  the step system. The acquire retry loop is steps, not a loop.
- The listener bookkeeping of `launch.ts` `bounded`: a late result appears as a cleanup process.
- The checks a capture makes before it uploads are over-approximated by a capture that may be abandoned at any
  time; the restore of a checkpoint is one step.
- AWS, S3, telemetry, token caching, the in-guest dirty flag as a claim about file contents.

Not modelled, cells:
- Templates, publish, snapshot and peek operations of the cell, the shell interpreter (a command is any
  function on workspaces), and HTTP handling.
- A finished command that is pruned while it still awaits its last sync may lose its entry among the active
  ones; nothing is claimed about aborting such a command.
- AgentFS SDK internals: the store is a tree of files and directories with link and device nodes only as
  reasons to refuse; a write below a missing directory is an error. The order of listings, which load sorts by
  locale, is a parameter. `migrate` and `hydrate` are not modelled.
- Commands of the container cell outside builds, its cancellation and its command table.

Not modelled, algorithms:
- UTF-8 encoding, locale order and SHA-256 are parameters or abstract values. The bytes of a file name in the
  ZIP are its encoding.
- Number texts in canonical JSON are abstract, with one text per number; in `CanonicalGraph.Printer.Fields`
  members are printed before they are sorted, which the printed text does not depend on.
- gzip, extraction to disk, and the standard's global pax headers: the code clears them after one entry, so
  global behaviour is not claimed.
- Empty parent directories that the installer prunes, and failures in the middle of its writes.
- Reading the request parts of a transfer from HTTP, and an abort that cannot reach the controller.
- The agent-builder workflow, grant and lease transitions: the store that performs them is not part of this
  model.
