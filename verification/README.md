# The host agent's bookkeeping, and the scheduler's pacing

A lazycloud host runs one agent. It starts containers and builds, relays commands to the supervisor
inside each container, batches output, leases durable disks, keeps build caches and updates itself.
Almost all of that happens in goroutines that share a few small structures, each under a mutex. What
the agent promises — output before results, one outcome per attempt, no disk write lost, no command
skipped — holds only over the interleavings of those goroutines, over what the server and the
containers may answer, and over crashes. This project models those structures and proves the promises
over every run.

Each module follows one component and has the same shape:

* the fields a mutex guards, as a value, with one function per critical section;
* a class with those fields, whose methods run the sections as the code does, loops included, and
  are proved to do exactly what the function says;
* a state machine that lets every goroutine, the server, timers and crashes step between any two
  sections, carrying histories (lines appended, commands accepted, policies requested, grants queued);
* an invariant that every step keeps, and the theorems over every run that follow from it.

Beside the theorems, lemmas such as `FlushAndCheckTakeEffect`, `StepsFreeTheirOwn`, `RequestsTakeEffect`
and `ConnectionsTakeOver` say outright what the single steps change, and runs such as
`FrontIsDelivered` and `EarlyPushPublishesOnce` go all the way, so that no theorem holds only because a
step does nothing.

| module | component |
|---|---|
| `LayerPublish` | publishing a build's layers until the server names none |
| `SupervisorLink` | the command queue and the connections that supersede each other |
| `LogDelivery` | the log batcher and the completions that wait for it |
| `AttemptSlots`, `CancelMemory` | slots, claims, outcomes, and the bounded memory of cancels |
| `AttemptHandover` | one attempt's way to its supervisor and back |
| `BuildCache` | build cache states and their eviction |
| `NetworkPolicy` | network policy changes |
| `DiskLease` | releasing a durable disk |
| `ReleaseInstall` | the agent's own releases: install, commit, prune and rollback |
| `LayerGrants` | grants on their way to the snapshotter, and starts that share layers |
| `SchedulerPace` | when the scheduler's loops sleep |
| `BuildOutcome` | who hands over a build's outcome |
| `BucketPrefix` | the directories that mounts of one bucket share |

## Where the code does not keep a promise

Each of these is shown by a run that the code allows, and the exact condition under which the code
does keep the promise is proved beside it.

* A second cancel of an attempt that is still in the index, but past its retention, is not remembered,
  although the cancel was just made: `ExpiredRecancelIsForgotten`, and `CancelIsRememberedExactly` for
  when one is.
* The comment on `release` (internal/agent/disks.go:390-396) says the local copy then holds nothing
  unpublished. Three things can make that false while the lease still holds, and a fourth leaves a copy
  behind:
  * the final publish returns an upload already awaiting commit (internal/diskengine/publish.go:44-47),
    so writes sealed after that upload are removed unpublished: `StaleUploadLosesAWrite`;
  * a lost attachment whose head could not be sealed is reported as lost all the same
    (internal/diskengine/lifecycle.go:31-34), and the publish goes on without the head's writes:
    `UnsealedHeadLosesAWrite`;
  * a refusal with the code `FailedPrecondition` from anything else in the publish, such as a snapshotter
    without a grant (internal/imagefs/snapshotter/disks.go:162-164), is taken for the end of the lease
    (internal/agent/disks.go:388,407): `MistakenRefusalLosesAWrite`;
  * a host that cannot attach disks is taken never to have attached this one
    (internal/agent/disks.go:398-400), but it is the agent's start that finds this out
    (internal/agent/agent.go:324): after a restart without the nbd module, say, the lease ends and the
    record is dropped while the copy stays, unpublished: `UnableHostAbandonsAWrite`.

  `RoundSavesAllExactly` says when a round saves everything whether or not the head was sealed,
  `RefusedRoundSavesExactly` when a refused one does, and `UnableRoundSavesExactly` when one of a host
  that cannot attach disks does.
* The comment on `installRelease` (internal/agent/update.go:126-128) promises that a crash at any point
  leaves the old release or a release on trial. An offer taken while the current release is itself on
  trial overwrites `previous` with the release on trial, so a rollback returns to it:
  `TwoOffersStrandTheHost`. An install of the version `current` names removes it first:
  `RepeatedOfferRemovesCurrent`. A commit may remove the trial marker of a release installed since:
  `CommitAfterInstallEndsTrial`. `InstallIsCrashSafeExactly` and `CommitIsSafeExactly` give the
  conditions, and `EveryCarefulRunIsCrashSafe` the promise under them.
* A restatement by the supervisor can take a container past its slots while a claim is under way:
  `ReadyMayExceedSlots`. `RunStaysWithinExactly` says which runs stay within them; no other step matters.
* The comment on `onFinished` (internal/agent/container.go:958) promises one outcome for each running
  attempt. `dispatch` sets an attempt running and queues its command only after it unlocked
  (internal/agent/container.go:912-919). A restatement composed before the supervisor had the attempt,
  and read in that gap or once the command was popped, frees its slot, and its outcome is then ignored:
  `EarlyRestatementLosesOutcome`. `OutcomeIsTakenExactly` says which runs take it.
* `drainNetwork` may leave `applying` set with nobody applying: `EndMayLeaveApplying`, and
  `StrandedExactly` for which runs do.
* `measure` may record a size that a build has changed since it looked, or one the tree never had, and
  keep it until another build gives the state back: `StaleNoteIsKept`, and `SizesAreAccurateExactly` for
  which runs do not.

## Model

| member | source | states |
|---|---|---|
| `LayerPublish.Publisher.Publish` | internal/agent/convert.go:142-168 | whatever layers each answer names, it stops; at most MAX_PUBLISH_ROUNDS calls for each distinct digest named and one more; a publish the server ends has had every report it produced answered, each sent once; one a call without an answer ends has sent them all; however it ends, one job per layer and sizes before uploads hold |
| `LayerPublish.Publisher.Start` | internal/agent/convert.go:171-205 | acts on every named layer in order, after which each runs or waits to report, or names the first that was named too often, whose rounds are then all used |
| `LayerPublish.Publisher.Act` | internal/agent/convert.go:171-205 | a layer that runs or waits to report is left alone and one out of rounds is refused; else one goroutine starts, converting a layer not yet converted or uploading one the server sent URLs for, or one report of its sizes is made; the whole invariant is kept |
| `LayerPublish.NamedIsActedOn` | internal/agent/convert.go:171-205 | naming a layer starts its conversion if it was not converted, its upload if the server sent URLs, and else sizes it once more, unless it runs or waits to report |
| `LayerPublish.Publisher.Next` | internal/agent/convert.go:227-265 | returns once something is to be reported or nothing runs; if a layer was active, at least one report was placed in the next request |
| `LayerPublish.Publisher.Sweep` | internal/agent/convert.go:227-265 | the next request is exactly the multiset of waiting reports, which no longer wait |
| `LayerPublish.Publisher.ReceiveAll` | internal/agent/convert.go:246-263 | a result and those that ended meanwhile: fewer goroutines run, and the invariant is kept |
| `LayerPublish.Publisher.Drain` | internal/agent/convert.go:227-265 | results that ended meanwhile are recorded and the invariant is kept |
| `LayerPublish.Publisher.Receive` | internal/agent/convert.go:268-274 | one running goroutine fewer, its layer waits to report |
| `LayerPublish.SweepLayers` | internal/agent/convert.go:227-265 | in any order of the map, the reports taken are those waiting, once each, and busy says whether any layer runs |
| `LayerPublish.ActKeeps` | internal/agent/convert.go:171-205 | naming a layer keeps one job per layer, every report counted once, and uploads only after sent sizes |
| `LayerPublish.JobStarts` | internal/agent/convert.go:213-224 | a goroutine starts only for a layer that has none |
| `LayerPublish.JobEnds` | internal/agent/convert.go:268-274 | the layer's one goroutine is the one that ended |
| `LayerPublish.ReportMade` | internal/agent/convert.go:268-274 | a new report waits in its layer and is counted once |
| `LayerPublish.RecordKeeps` | internal/agent/convert.go:268-274 | recording a result keeps the invariant |
| `LayerPublish.SweepKeeps` | internal/agent/convert.go:227-265 | moving the waiting reports into the request keeps the invariant, with the count of placed reports |
| `LayerPublish.CallKeeps` | internal/agent/convert.go:142-168 | a call moves the request's reports to the sent ones and announces their layers' sizes |
| `LayerPublish.CollectedIsBounded` | internal/agent/convert.go:142-205 | reports ever placed in a request are at most MAX_PUBLISH_ROUNDS for each digest named |
| `LayerPublish.AllSent` | internal/agent/convert.go:142-168 | with nothing waiting and nothing in the request, what was produced is what was sent |
| `SupervisorLink.EveryRunDeliversInOrder` | internal/agent/link.go:185-297 | in every run each connection sends a contiguous run of the accepted commands, and what the connections popped, followed by the queue, is the accepted commands |
| `SupervisorLink.OnlySupersessionRepeats` | internal/agent/link.go:229-297 | a command two connections sent is the earlier one's last, unpopped and superseded, and the later one's first |
| `SupervisorLink.CommandIsLostExactly` | internal/agent/link.go:185-200 | in every run a command is lost iff the link was closed or 1024 commands wait; any other is accepted last |
| `SupervisorLink.FrontIsDelivered` | internal/agent/link.go:277-296 | undisturbed, the current connection sends the front and pops it, and is ready for the next |
| `SupervisorLink.PopIsOfTheFront` | internal/agent/link.go:233-242 | when the current connection pops, the queue is not empty and its front is what that connection sent last |
| `SupervisorLink.CurrentNeverSleepsThroughWork` | internal/agent/link.go:185-297 | a parked current connection with commands queued has a wake token |
| `SupervisorLink.StepKeepsInv` | internal/agent/link.go:185-297 | every step of every connection, enqueue and close keeps the invariant |
| `SupervisorLink.Link.Accept` | internal/agent/link.go:185-200 | queued last unless the link is closed or 1024 commands wait; wakes the current connection |
| `SupervisorLink.Link.QueuedAttempts` | internal/agent/link.go:204-213 | exactly the attempts of queued run commands |
| `SupervisorLink.Link.Next` | internal/agent/link.go:217-227 | the front for the current connection, nothing for a superseded one |
| `SupervisorLink.Link.Sent` | internal/agent/link.go:233-242 | only the current connection pops, and pops the front |
| `SupervisorLink.Link.Leave` | internal/agent/link.go:256-262 | a connection that is no longer current leaves its successor alone |
| `LogDelivery.ResultsNeverOvertakeOutput` | internal/agent/container.go:959-1007 | in every run a completion whose work goes on calls only after every line appended before its mark was accepted or finally refused |
| `LogDelivery.CallFollowsItsOutput` | internal/agent/container.go:959-1007 | however a run goes on after a mark, a completion whose work goes on calls after all lines the run appended before the mark were finished, in order |
| `LogDelivery.ServedCompletionWakes` | internal/agent/logs.go:119-138 | in every run a sleeping completion whose lines were all finished can wake, whatever is still buffered |
| `LogDelivery.LookFlushesExactly` | internal/agent/logs.go:148-171 | a look starts a flush iff there are lines and a completion waits, they fill a batch, or the oldest waited long enough |
| `LogDelivery.FinishedBatchesAreThePrefix` | internal/agent/logs.go:85-222 | in every run the finished batches and the buffer concatenate to the appended lines, with seq = flushed + lines, bytes their total size, and the buffer past its bound by one line at most |
| `LogDelivery.SenderNeverSleepsThroughWork` | internal/agent/logs.go:85-175 | a sender parked on a view that missed lines, urgency or a full batch has a wake token, or a changer has yet to signal |
| `LogDelivery.SleepingCompletionIsServed` | internal/agent/logs.go:119-138 | a sleeping completion can wake, give up, or the sender is awake or about to be |
| `LogDelivery.StepKeepsInv` | internal/agent/logs.go:85-222 | every step of appenders, sender and completions keeps the invariant |
| `LogDelivery.BatchIsLongest` | internal/agent/logs.go:177-188 | any longer prefix is over the batch size |
| `LogDelivery.BatchIsUnique` | internal/agent/logs.go:177-188 | the batch is determined by the buffered lines |
| `LogDelivery.LogBatcher.TryAppend` | internal/agent/logs.go:85-99 | buffers the line exactly while the buffer has room |
| `LogDelivery.LogBatcher.CheckFlushed` | internal/agent/logs.go:119-130 | passes exactly when everything up to the mark was flushed, else asks for an urgent flush |
| `LogDelivery.LogBatcher.NextBatch` | internal/agent/logs.go:177-188 | the longest prefix within the batch size, or a single line, with its size |
| `LogDelivery.LogBatcher.FinishBatch` | internal/agent/logs.go:210-221 | the batch leaves the front of the buffer and is counted flushed, and every flush wakes those who wait |
| `AttemptSlots.ClaimsStayWithinSlots` | internal/agent/container.go:850-983 | over every run without a restatement, claimed tasks plus running attempts stay within the slots, or where they were |
| `AttemptSlots.OnlyReadyAddsLoad` | internal/agent/container.go:850-983 | no single step but a restatement takes them past the slots |
| `AttemptSlots.ReadyMayExceedSlots` | internal/agent/container.go:792-841 | a legal run, from the restatement that starts the claims, in which a second one does |
| `AttemptSlots.RunStaysWithinExactly` | internal/agent/container.go:792-983 | a run is within the slots in every state iff, at each restatement, the attempts stated, queued or completing, but for those cancelled of late that are only stated, fit beside the tasks claimed |
| `AttemptSlots.RestatedCancelledExactly` | internal/agent/container.go:798-812 | in every run an attempt cancelled within the retention runs after a restatement iff it is queued or completing |
| `AttemptSlots.OneOutcomePerAdmission` | internal/agent/container.go:959-983 | in every run `completing` is the multiset of deliveries in flight, and no attempt has more outcomes taken than times it was set running anew, however often it is repeated |
| `AttemptSlots.LateClaimOfCancelledIsDropped` | internal/agent/container.go:902-956 | in every run, an attempt first cancelled within the retention is not set running by a late claim response |
| `AttemptSlots.UncancelledAttemptRuns` | internal/agent/container.go:792-935 | in every run an attempt nobody cancelled takes a slot when its task is handed over, and runs after a restatement that states it or finds it queued |
| `AttemptSlots.FinishTakesExactly` | internal/agent/container.go:959-972 | an outcome is taken iff its attempt runs with none under way, and changes nothing that runs |
| `AttemptHandover.OutcomeIsTakenExactly` | internal/agent/container.go:792-983 | in every run a dispatched attempt, neither cancelled nor in a container that exited, keeps its slot until its outcome and has it taken iff the last restatement read in between stated it or found its command queued, or none was read |
| `AttemptHandover.UnstatedIsEarly` | internal/supervisor/supervisor.go:538-566 | in every run a restatement read before the outcome that does not state the attempt was composed before the supervisor had it |
| `AttemptHandover.EarlyRestatementLosesOutcome` | internal/agent/container.go:902-932 | legal runs in which the outcome of a running attempt is ignored: a restatement in the gap before the enqueue, and one after the pop |
| `AttemptHandover.UndisturbedOutcomeIsTaken` | internal/agent/container.go:902-983 | with no restatement in between the outcome is taken |
| `AttemptHandover.StepKeepsInv` | internal/agent/container.go:792-983 | every step of dispatch, queue, wire, supervisor and restatements keeps that |
| `AttemptSlots.StepKeepsInv` | internal/agent/container.go:792-983 | every step keeps deliveries, outcomes and the cancel memory as stated |
| `AttemptSlots.Container.OnReady` | internal/agent/container.go:792-815 | running becomes the stated attempts not cancelled, the queued ones and the completing ones |
| `AttemptSlots.Container.Dispatch` | internal/agent/container.go:902-915 | the attempt runs unless the container exited or the cancel memory answers for it; nothing else changes |
| `AttemptSlots.Container.CancelAttempt` | internal/agent/container.go:938-956 | remembers the cancel and frees the slot at once |
| `AttemptSlots.Container.OnFinished` | internal/agent/container.go:959-983 | takes an outcome exactly for a running attempt with none under way |
| `AttemptSlots.Container.Free` | internal/agent/container.go:976-981 | a delivered attempt neither runs nor completes |
| `AttemptSlots.Container.Leave` | internal/agent/container.go:581-612 | an exit empties running, once |
| `CancelMemory.HasIsRecentRecorded` | internal/agent/container.go:1081-1101 | the index answers exactly for recorded cancels within the retention and among the newest maxCancelled |
| `CancelMemory.FirstCancelIsRemembered` | internal/agent/container.go:1081-1101 | an attempt first cancelled at t answers until t + retention unless maxCancelled cancels came after |
| `CancelMemory.NeverCancelledNeverAnswers` | internal/agent/container.go:1098-1101 | an attempt never cancelled never answers |
| `CancelMemory.CancelIsRememberedExactly` | internal/agent/container.go:1086-1096 | a cancel is remembered at its own time iff its attempt was unknown or within its retention |
| `CancelMemory.ExpiredRecancelIsForgotten` | internal/agent/container.go:1086-1096 | two cancels a retention apart leave the attempt forgotten |
| `CancelMemory.MemoryIsNewestRecorded` | internal/agent/container.go:1081-1096 | the index is a suffix of the recorded cancels, cut only where the bound or the retention cuts it |
| `CancelMemory.ReplayIsValid` | internal/agent/container.go:1081-1096 | after any cancels in time order the index is duplicate-free, time-sorted and bounded |
| `CancelMemory.AddKeepsValid` | internal/agent/container.go:1086-1096 | one more cancel keeps it so |
| `CancelMemory.CancelledAttempts.Record` | internal/agent/container.go:1086-1096 | the map and the order list hold exactly the index after the cancel |
| `CancelMemory.CancelledAttempts.Remembers` | internal/agent/container.go:1098-1101 | answers exactly as the index does |
| `BuildCache.BuildsAndRemovalsStayApart` | internal/agent/buildcache.go:70-211 | in every run no two builds hold one workspace state, no directory is removed while a build holds a state of its workspace, and an open state stays on disk |
| `BuildCache.StepKeepsInv` | internal/agent/buildcache.go:70-211 | every step of builds and eviction keeps them apart |
| `BuildCache.LowestFreeIsFew` | internal/agent/buildcache.go:89-95 | a workspace's n-th state is taken only beside n held ones |
| `BuildCache.BuildCaches.Hold` | internal/agent/buildcache.go:89-95 | holds the lowest state no build holds; the search ends |
| `BuildCache.BuildCaches.TryEvict` | internal/agent/buildcache.go:183-194 | marks the workspace exactly when no build holds a state of it |
| `BuildCache.BuildCaches.Evict` | internal/agent/buildcache.go:166-211 | with builds coming and going between any two sections: least recently used first; each workspace is examined while over the limit, left alone iff a build held a state of it at that moment, and the ones removed are recorded; a pass that is not cancelled ends within the limit or with all examined |
| `BuildCache.BuildCaches.EvictOne` | internal/agent/buildcache.go:183-208 | a workspace is removed only while marked and unheld, whatever builds do meanwhile |
| `BuildCache.PassIsThorough` | internal/agent/buildcache.go:166-211 | without failures, what is left over the limit was in use when examined, and so was everything used less recently than a removed workspace that was not removed |
| `BuildCache.SortByUseSorts` | internal/agent/buildcache.go:179-179 | the order is sorted by use, then name, and a permutation |
| `BuildCache.MeetFate` | internal/agent/buildcache.go:180-210 | only a removal lowers what remains |
| `BuildCache.BuildCaches.MeasureOne` | internal/agent/buildcache.go:257-273 | with builds coming and going between any two sections and during each walk: a workspace counts the sum of what its states count, one after the other; exactly the sizes walked go on record, and only a walk can fail it |
| `BuildCache.BuildCaches.MeasureState` | internal/agent/buildcache.go:257-272 | a state counts the size on record when looked at, nothing if a build then held it unmeasured, else what its walk found, which alone goes on record |
| `BuildCache.UndisturbedCounts` | internal/agent/buildcache.go:257-273 | with no build taking or giving back a state meanwhile, each state counts its size on record, nothing if a build holds it unmeasured, else its tree |
| `BuildCache.SizesAreAccurateExactly` | internal/agent/buildcache.go:257-270 | in every run of builds, measuring and removals, with builds changing the tree under a walk, the size on record of a state in nobody's hands is right throughout iff no pass notes a size other than the one a build left since the pass looked |
| `BuildCache.StaleNoteIsKept` | internal/agent/buildcache.go:257-270 | legal runs that leave a wrong size on record: a build between the walk and the note, and one during the walk |
| `NetworkPolicy.NewestPolicyWins` | internal/agent/network.go:84-162 | in every run at most one goroutine applies, applied is at most wanted, and a started container at rest, neither ended nor failed at its start, tried the newest requested policy last, which is in force if that succeeded |
| `NetworkPolicy.AttemptsAndVersionsGrow` | internal/agent/network.go:124-162 | generations are tried once each in order; reported versions strictly grow, each that of the policy tried; what is reported is the last of them and whether it worked |
| `NetworkPolicy.StrandedExactly` | internal/agent/network.go:124-162 | a run ends with applying set and no goroutine iff somewhere in it a policy that was not the start's failed and the goroutine then found the work ended |
| `NetworkPolicy.SettleStrandsExactly` | internal/agent/network.go:136-160 | which settlement does that |
| `NetworkPolicy.OthersStrandNothing` | internal/agent/network.go:84-134 | no other step does or undoes it |
| `NetworkPolicy.EndMayLeaveApplying` | internal/agent/network.go:124-162 | a legal run that ends with applying set, no goroutine and a request unapplied |
| `NetworkPolicy.StepKeepsInv` | internal/agent/network.go:84-162 | every request, look and settlement keeps the invariant |
| `NetworkPolicy.NetworkState.ApplyStart` | internal/agent/network.go:84-94 | the start's policy is wanted only if it restricts and nothing newer is |
| `NetworkPolicy.NetworkState.Request` | internal/agent/network.go:98-120 | a version already reported changes nothing; another becomes the wanted one, and a goroutine starts exactly when none applies |
| `NetworkPolicy.NetworkState.Take` | internal/agent/network.go:124-134 | the newest policy, or the end of applying once caught up |
| `NetworkPolicy.NetworkState.Settle` | internal/agent/network.go:136-147 | records the generation, and a newer version with its result |
| `DiskLease.UnableRoundSavesExactly` | internal/agent/disks.go:397-428 | a round of a host that cannot attach disks ends the lease, drops the record and leaves the copy, and the server has everything iff it had it before |
| `DiskLease.UnableHostAbandonsAWrite` | internal/agent/disks.go:398-400 | a legal run in which a write stays only in a copy without a record |
| `DiskLease.EvictedOnlyWhenSaved` | internal/agent/disks.go:338-499 | in every run of rounds, failures, lost attachments, lost answers, crashes and restarts, a copy has a lease record, is removed only after the lease ended, and then the server has all its writes unless it ended the lease itself or the round that ended it met one of four named faults; a record is dropped only for a completed release, which leaves a copy only on a host that cannot attach disks |
| `DiskLease.RefusedRoundSavesExactly` | internal/agent/disks.go:397-428 | a final publish refused at any step under the lease removes the copy all the same, and saves everything iff the server had it by then |
| `DiskLease.RoundSavesAllExactly` | internal/agent/disks.go:397-428 | a round whose steps succeed, its head sealed or not, saves everything iff nothing was missing, an upload of everything awaited commit, or none did and everything was or got sealed |
| `DiskLease.StaleUploadLosesAWrite` | internal/diskengine/publish.go:41-47 | a legal run in which a write is lost to an older upload |
| `DiskLease.UnsealedHeadLosesAWrite` | internal/diskengine/lifecycle.go:31-34 | a legal run in which a write is lost with an unsealed head |
| `DiskLease.MistakenRefusalLosesAWrite` | internal/agent/disks.go:388-409 | a legal run in which a write is lost to a refusal taken for a fence |
| `DiskLease.UndisturbedRound` | internal/agent/disks.go:338-428 | the steps of such a round, its head sealed or not, and what the server has at its end |
| `DiskLease.StepKeepsInv` | internal/agent/disks.go:338-499 | every step, failure, lost answer and crash keeps the invariant |
| `DiskLease.Releaser.Publish` | internal/agent/disks.go:338-384 | a publish that succeeds, or reports its attachment lost, leaves the server with exactly the upload that awaited commit, else with what was sealed before a head that could not be, else with every write; a success sealed everything |
| `DiskLease.Releaser.Save` | internal/agent/disks.go:355-384 | its steps after the seal |
| `DiskLease.Releaser.Release` | internal/agent/disks.go:397-428 | completes iff each of its calls does, a refusal, a lost attachment and missing state of the publish apart; the copy goes only once the lease ended, and then the server has exactly what the publish promised unless a refusal was mistaken; a host that cannot attach disks changes neither the copy nor what is saved |
| `DiskLease.ReleaseAll` | internal/agent/disks.go:485-499 | the records kept are those whose release failed, in order; all of them if the file cannot be written |
| `ReleaseInstall.InstallIsCrashSafeExactly` | internal/agent/update.go:126-172 | every prefix of an install's effects leaves safe directories iff the release is not the current one and the current one is not on trial |
| `ReleaseInstall.CommitIsSafeExactly` | internal/agent/update.go:351-379 | removing the trial marker is safe iff the release that ran is the current one |
| `ReleaseInstall.EveryCarefulRunIsCrashSafe` | internal/agent/update.go:96-172 | over every run that meets these conditions, with stops at any step and rollbacks, `current` is complete and proved itself, or is on trial with a complete, proven `previous` |
| `ReleaseInstall.InstallAndPruneNeverOverlap` | internal/agent/update.go:351-379 | in every run at all an install never overlaps a commit or its prune |
| `ReleaseInstall.OfferDuringTrialStrandsRollback` | internal/agent/update.go:96-172 | an offer taken during a trial and stopped after the `previous` link leaves a rollback only the release on trial |
| `ReleaseInstall.RollbackReturns` | cmd/agent/agent-service.sh:15-29 | from safe directories the wrapper gives up the release on trial for one that proved itself, and the agent then started refuses the release given up |
| `ReleaseInstall.TwoOffersStrandTheHost` | internal/agent/update.go:96-172 | a legal run that ends there |
| `ReleaseInstall.RepeatedOfferRemovesCurrent` | internal/agent/update.go:96-172 | a legal run that removes the release `current` names |
| `ReleaseInstall.CommitAfterInstallEndsTrial` | internal/agent/update.go:351-379 | a legal run that leaves a release that never ran current and off trial |
| `ReleaseInstall.StepKeepsInv` | internal/agent/update.go:96-172 | every careful step keeps the invariant |
| `ReleaseInstall.ProgressIsPrefix` | internal/agent/update.go:129-172 | the effects applied one by one are the prefixes of the install |
| `ReleaseInstall.PrunedFixes` | internal/agent/update.go:383-426 | a prune removes exactly the listed releases no link names and no container mounts, and keeps directories safe |
| `ReleaseInstall.Updater.constructor` | internal/agent/agent.go:452-452 | an agent is on trial exactly when the marker names its version |
| `ReleaseInstall.Updater.Offered` | internal/agent/update.go:96-112 | an offer is taken unless it is the running or rejected release or something is under way |
| `ReleaseInstall.Updater.InstallRelease` | internal/agent/update.go:129-172 | whatever fails, the directories are some prefix of the install and `current` stays; on success the release is complete, current and on trial, and `previous` names the one it replaced |
| `ReleaseInstall.Updater.BeginCommit` | internal/agent/update.go:355-364 | a commit starts exactly on trial with nothing under way |
| `ReleaseInstall.Updater.PruneReleases` | internal/agent/update.go:383-426 | what was pruned is the prune of the entries reached |
| `ReleaseInstall.Updater.Commit` | internal/agent/update.go:351-379 | a commit of the current release on trial leaves safe directories and both links |
| `LayerGrants.PendingIsTheMergeSinceTake` | internal/agent/layers.go:85-137 | in every run pending holds, for each layer refreshed or queued again since the last take, the first of the grants expiring last |
| `LayerGrants.MergeIsUnique` | internal/agent/layers.go:85-98 | nothing else is that merge |
| `LayerGrants.OrderIsImmaterial` | internal/agent/layers.go:85-98 | the same grants in any order leave the same layers with the same expiries |
| `LayerGrants.MergedCovers` | internal/agent/layers.go:85-98 | queueing never displaces a later grant, covers every one queued, and invents none |
| `LayerGrants.NoUnexpiredGrantIsLost` | internal/agent/layers.go:76-137 | in every run of refreshes, hand-overs and failures, an unexpired refreshed grant is pending, in flight or handed over, or one at least as late is |
| `LayerGrants.QueuedIsWhatWasRefreshed` | internal/agent/layers.go:75-98 | in every run the grants counted as queued are exactly those a refresh held before they expired |
| `LayerGrants.RefreshLoopIsSound` | internal/agent/layers.go:76-137 | only refreshed grants are handed over, and a loop parked past pending grants has a wake or a refresh about to signal |
| `LayerGrants.StepKeepsInv` | internal/agent/layers.go:76-137 | every step keeps both |
| `LayerGrants.SharersAreMarked` | internal/agent/layers.go:165-183 | after every run any two live starts that share a layer are both marked shared |
| `LayerGrants.LiveExactly` | internal/agent/layers.go:177-302 | a start is live iff it was begun and neither released nor begun anew since |
| `LayerGrants.SharedExactly` | internal/agent/layers.go:165-183 | a live start is marked iff a sharer was live as it began, or a start or image naming one of its layers came since |
| `LayerGrants.LayerSources.Queue` | internal/agent/layers.go:85-98 | merges the unexpired grants |
| `LayerGrants.LayerSources.Take` | internal/agent/layers.go:101-107 | every pending grant once, and none left |
| `LayerGrants.LayerSources.Share` | internal/agent/layers.go:165-173 | marks exactly the other starts that use one of the layers, and says whether there was one |
| `LayerGrants.LayerSources.Begin` | internal/agent/layers.go:177-183 | the new start is live and shared iff there was one |
| `LayerGrants.LayerSources.Release` | internal/agent/layers.go:294-302 | that start and no other is no longer live |
| `SchedulerPace.NoChangeIsSleptThrough` | cmd/scheduler/pace.go:35-58 | in every run, whenever leading or live differs from what a sleep was chosen by, the channel it sleeps on is closed, and only a change closes one |
| `SchedulerPace.LeaderNeverOversleeps` | cmd/scheduler/pace.go:137-183 | in every run a sleeping loop of the replica that leads now was woken or is timed within the longest of its interval, the safety tick and the contended retry |
| `SchedulerPace.LiveLeaderKeepsItsInterval` | cmd/scheduler/pace.go:137-183 | with live work, or a loop that is not quiet, within its interval or the contended retry |
| `SchedulerPace.StandbyIsUntimed` | cmd/scheduler/pace.go:137-183 | a standby's loop was woken or is timed iff its pass asked to run again or a rerun is set |
| `SchedulerPace.IdleLeaderWakesWhenDue` | cmd/scheduler/pace.go:165-183 | an idle leader's quiet loop wakes by the time work is due, and sleeps the safety tick when nothing is |
| `SchedulerPace.WatcherFollowsTheState` | cmd/scheduler/pace.go:81-95 | the watcher was woken, or is timed iff this replica leads, by the tick while work is live and the safety tick otherwise |
| `SchedulerPace.WaitIsBounded` | cmd/scheduler/pace.go:149-183 | the bounds on the chosen sleep, for every answer of due and rerun |
| `SchedulerPace.WaitExactly` | cmd/scheduler/pace.go:149-183 | the sleep chosen, for every view and every answer of due and rerun |
| `SchedulerPace.PassLeadsToSleep` | cmd/scheduler/pace.go:137-148 | undisturbed, a loop sleeps on the present channel by the present view, or by the contended retry if its pass asked to run again |
| `SchedulerPace.Pace.Set` | cmd/scheduler/pace.go:35-44 | a change closes the channel handed out and makes a new one; anything else leaves it |
| `SchedulerPace.Pace.Lead` | cmd/scheduler/pace.go:51-58 | a new leader takes the probe's answer in the same step, a failed probe as live; the channel closes iff the state changed |
| `SchedulerPace.Pace.WaitFor` | cmd/scheduler/pace.go:149-183 | a leader's wait is timed and bounded; a standby's is timed iff asked |
| `BuildOutcome.AtMostOneOutcome` | internal/agent/build.go:161-348 | in every interleaving at most one outcome is pushed early or returned, and at most one publish begins |
| `BuildOutcome.ExactlyOneAtTheEnd` | internal/agent/build.go:208-348 | from a deadline or an exit that was not out of memory exactly one is handed over; from any other end none is returned |
| `BuildOutcome.NothingIsPushedLater` | internal/agent/build.go:256-266 | once runBuilder returned, nothing is pushed |
| `BuildOutcome.PushLineWinsWhenDrained` | internal/agent/build.go:256-311 | when the output was read to its end first, the outcome was pushed early iff a push line passed the checks |
| `BuildOutcome.DrainedRunExactly` | internal/agent/build.go:256-348 | in every run whose output was read to its end first, the outcome was pushed early iff some push line came with a readable digest while the build was not stopping, and else returned |
| `BuildOutcome.EndsReturn` | internal/agent/build.go:294-348 | what runBuilder returns from each end of its wait |
| `BuildOutcome.EarlyPushPublishesOnce` | internal/agent/build.go:161-348 | an image pushed while the builder exports its cache is published once, before the build finishes |
| `BuildOutcome.UnstoppedBuildPublishes` | internal/agent/build.go:161-193 | a build that finished unstopped published each outcome handed over |
| `BuildOutcome.StepKeepsInv` | internal/agent/build.go:161-348 | every step of the watcher, the runner and the publishes keeps the invariant |
| `BuildOutcome.OutcomeClaim.ClaimPush` | internal/agent/build.go:280-293 | the watcher pushes exactly at the first readable push line before anyone else claimed |
| `BuildOutcome.OutcomeClaim.Claim` | internal/agent/build.go:259-266 | says whether the watcher came first, and shuts it out after |
| `BuildOutcome.OutcomeClaim.AtEnd` | internal/agent/build.go:294-348 | the outcome returned at each end, none where the watcher came first |
| `BucketPrefix.BucketSpec` | internal/agent/buckets.go:25-48 | refused iff a field is missing; shared is the longest whole-directory prefix of every mount, shared + dirs[i] rebuilds prefix i, and read-only iff all are |
| `BucketPrefix.SharedDirs` | internal/agent/buckets.go:51-59 | the longest string that is empty or ends in a slash and starts both |
| `BucketPrefix.SharedByAll` | internal/agent/buckets.go:30-38 | the fold is the longest such string for the whole group |
| `BucketPrefix.SharedExtends` | internal/agent/buckets.go:30-38 | folding in one more prefix keeps it the longest |
| `BucketPrefix.SharedIgnoresOrder` | internal/agent/buckets.go:30-38 | two groups of the same prefixes share the same directories |
| `BucketPrefix.BelowShared` | internal/agent/buckets.go:30-48 | each prefix is shared followed by its directory |

## Left out

- Time is a clock value that never goes back, and a timer a step that may happen at any time; delays, jitter and backoff are not modelled.
- The server, Docker, the snapshotter and the disk engine are steps with any answer their contracts allow; telemetry, logging and HTTP are not modelled.
- Conversions started ahead of a publish (`ahead`, `prepare`), the tokens they wait for, and the conversion and upload of a layer's bytes: a layer's goroutine ends with any result.
- LayerPublish.Publisher.Publish: a call is one step, so a request repeated inside it counts once. The server names digests of a finite set `image`, since no bound can hold over infinitely many; the bound itself is in the digests named.
- The contents of the supervisor's configuration, and what the supervisor does with a repeated command.
- Appends that wait for room in the log buffer, and the retries of a log batch or an outcome delivery, which only delay the step that follows.
- The loop that waits for a slot to be free, and the end of the claim loop when a container stops.
- Build states that name no workspace, which exist on disk before they are held.
- The pending-policy file and its resumption by an adopted agent, and the helper container that applies a policy.
- AttemptHandover.OutcomeIsTakenExactly: one connection is followed, whose messages are read in order; messages and commands lost with a connection are not modelled.
- DiskLease.EvictedOnlyWhenSaved: a periodic publish does not overlap a release of the same disk, and one disk is followed at a time; writes after an attachment was lost are not ruled out, and the engine's answer that it holds no state for a disk it listed is not a step of the runs. What a later attach makes of a copy left behind is not modelled.
- How often the service wrapper starts a release before it gives up: any start may be the one that does.
- Downloading, verifying, extracting and smoke-running a release come before its first effect on the directories, and are a failure or nothing.
- Prefetching, traces and the wait that ends a trace.
- The names of the exported manifest and the conversions started when it appears.
- The API, billing, web and Python parts of the repository, which authorize, map and store.
