# Verified model of the Paseo gateway and controller protocols

This project models the crash-tolerant protocols of a gateway and controller that run agent
workspaces on Kubernetes, and proves what those protocols promise. All of them work over a store
of versioned rows with compare and swap (`VersionedStore.dfy`).

| part | files | what is modelled |
|---|---|---|
| scheduler | `Scheduler*.dfy` | reservations, run records, dispatches, outcomes, releases, recovery, ticks, edits, deletion and pruning of one schedule |
| Codex broker | `Codex*.dfy` | renewal of a rotating login held in one authority Secret, published to output Secrets |
| GitHub App broker | `GitHub*.dfy` | claim, mint, commit or back off on one output Secret |
| creation journal and receipts | `Creation*.dfy` | one executor per idempotency key, durable progress, recovery; one backend create per receipt |
| agent identity | `AgentIdentity.dfy`, `AgentRegistry.dfy`, `ClaimLimits.dfy` | durable routes of agent GUIDs, quarantine, claim permits and cache |
| workspace controller | `WorkspaceController.dfy`, `Controller*.dfy` | stop and reconcile of one workspace |
| transcripts | `RetainedHistory.dfy`, `History*.dfy` | capture, receipts with their deletion, paging, and the queue in front of reads |
| uploads | `Upload*.dfy` | staging under a byte budget shared by all sessions, and handing files over |
| routing | `ScopedId.dfy`, `Routing.dfy` | scoped IDs, message translation, terminal slots |
| directories | `DirectoryPages.dfy`, `WorkspaceLabels.dfy`, `Label*.dfy`, `AgentListing.dfy` | listing pages, the label catalog, its publication and what clients show of it, partial agent listings |

## How the concurrent parts are modelled

Every protocol over shared records is a state machine: a state holds the records, the program
position of each task or broker, and a log of what was committed or sent; an action is one await of
one task, an answer from outside, a failed request (applied or not), a crash, the passing of time,
or an operator's change. Theorems are about every sequence of actions from the initial state, so
about every interleaving, any number of tasks and any crashes. The `*Proof` modules and the modules
named after a property hold the invariants; the theorems come last in each file. The imperative
modules (`*Service`, `*Renewal`, `AgentRegistry`, the end of `HistoryReceipt`) hold the program's
methods in its own order of steps over a cluster that others change at every await: each of their
steps is a step of the machine, so the theorems apply to them, and undisturbed they make progress.

Conventions: digests stand for the text they digest; random identifiers, versions, leases and UIDs
are fresh numbers; the clock never goes back; cron evaluation is any later time; answers of the
native Codex process, of GitHub and of daemons are arbitrary. Where a promise of the code fails, the
table gives the exact condition under which it holds, and a concrete run in which it does not.

Where code and documentation differ, the code is followed. The comment above the authority re-read
(`src/credentials/codex-subscription.ts:232`) says an operator's change fences a publication; the
output write that follows is fenced by the output's version only, so a deleted output can go back, as
`PublicationGoesBackIff` says.

`dafny verify dfyconfig.toml` checks the whole project.

## Model

| member | source | states |
|---|---|---|
| VersionedStore.VersionStillCurrent | src/kubernetes/records.ts:9-16 | after any requests of any clients, the version a client read is current exactly when no write to that row was accepted since, and the value is then the one it read |
| VersionedStore.VersionNeverReturns | src/kubernetes/client.ts:679-702 | a version once replaced or deleted never comes back, not even when the row is created again |
| VersionedStore.Swap | src/kubernetes/client.ts:679-702 | a compare and swap succeeds exactly when the stored version is the expected one, and then stores the value under the next version |
| VersionedStore.RecordStore.CreateRecord | src/kubernetes/client.ts:779-787 | a create fails exactly when the record exists, and is one request of the store |
| VersionedStore.RecordStore.UpdateRecord | src/kubernetes/client.ts:789-799 | an update replaces the record exactly when the version named is the stored one |
| VersionedStore.RecordStore.DeleteRecord | src/kubernetes/client.ts:801-808 | a delete removes the record exactly when the version named is the stored one |
| SchedulerDispatch.DispatchesAreBacked | src/gateway/schedules.ts:566-583 | every dispatch follows a committed run record, which follows a committed reservation of the same run |
| SchedulerDispatch.DispatchedOncePerKeptRecord | src/gateway/schedules.ts:502-605 | over every interleaving, crash and restart, two dispatches of one run id are for two records, and before the later dispatch the one created first was deleted before the other was created: a run is dispatched at most once while its record is kept |
| SchedulerAdmission.ReservationsAreAdmitted | src/gateway/schedules.ts:513-535 | every committed reservation replaced a schedule that was not expired, had a slot free under its own policy (none held under Forbid), did not hold this run, had runs left under the maxRuns in force, and, if automatic, was active with exactly this due time |
| SchedulerAdmission.TotalRunsCountsReservations | src/gateway/schedules.ts:556-567 | totalRuns is the number of reservations ever committed |
| SchedulerAdmission.DueTimesIncrease | src/gateway/schedules.ts:702-772 | with a clock that does not go back, the due times of committed automatic fires strictly increase |
| SchedulerAdmission.DispatchesAreLimited | src/gateway/schedules.ts:556-583 | dispatches never outnumber reservations, so a run limit that stays in force bounds the dispatches |
| SchedulerLimits.LimitEndsSchedule | src/gateway/schedules.ts:556-565 | with nobody resuming it or changing its limits, a schedule never commits more reservations than maxRuns, is not active once it has committed that many, and is completed only then or once it has expired |
| SchedulerLimits.UnlimitedEndsByExpiry | src/gateway/schedules.ts:726-742 | a schedule without a run limit is completed only once it has expired |
| SchedulerSlots.UnfinishedRunsHoldOneSlotIff | src/gateway/schedules.ts:372-377 | over every run from a new schedule on, a run record that is dispatching, running or unknown has exactly one reservation at every point if and only if no step gives up the slot of an unfinished run or creates a record without one |
| SchedulerSlots.ActiveHasNextRun | src/gateway/schedules.ts:378-426 | in every reachable state a schedule is active exactly while it has a next run time |
| SchedulerSlots.SlotsAreFewAndDistinct | src/gateway/schedules.ts:372-377 | in every reachable state there are at most sixteen reservations, no two of one run |
| SchedulerSlots.StepKeepsPromiseIff | src/gateway/schedules.ts:180-223 | one step of anybody breaks that promise exactly when it is a release or a recovery's save that drops the slot of an unfinished run, or a fire's or a recovery's create whose reservation is gone |
| SchedulerKept.KeptRunsHoldOneSlot | src/gateway/schedules.ts:566-617 | so a run of which no record was deleted has exactly one reservation until it is finished |
| SchedulerKept.UnfinishedRunsHoldOneSlot | src/gateway/schedules.ts:640-644 | and so has one whose record is deleted only while no create, release or recovery relies on it |
| SchedulerOrphans.LateReleaseTakesNewSlot | src/gateway/schedules.ts:619-644 | for every history limit a run of the code that breaks the promise: enough later runs finish for the record to be pruned, its request fires again, and a second, late release of the old run takes the new run's slot |
| SchedulerOrphans.LateRecoveryRecordsOldRun | src/gateway/schedules.ts:180-210 | another, for every history limit: a recovery that found no record yet records, after the run finished and was pruned, an unknown run that holds no slot |
| SchedulerScenarios.SoloTick | src/gateway/schedules.ts:720-770 | what a tick makes of a due schedule: completed if expired or at its limit, moved past the tick without a run if more than a second late, busy or out of capacity, and otherwise fired under its due time, unless that run is known already |
| SchedulerScenarios.SoloCreates | src/gateway/schedules.ts:502-572 | alone, an admitted request leaves one more slot and one more counted run (the run that uses up the limit completing the schedule, any other moving an active one to its next time), then its run record, and nothing else |
| SchedulerScenarios.SoloSettles | src/gateway/schedules.ts:574-603 | alone, a dispatch is sent once and its answer recorded: accepted as running, rejected as finished with its slot still to be released, anything else as unknown with its slot kept |
| SchedulerScenarios.SoloReleases | src/gateway/schedules.ts:606-617 | alone, a release gives up the slot of its run and no other |
| SchedulerRestart.SoloRecovers | src/gateway/schedules.ts:180-223 | a restart nobody disturbs: every reserved run still on its way is recorded as unknown, none is sent again, exactly the finished ones lose their slot, and a missed time is moved past now |
| SchedulerRestart.SoloCompletes | src/gateway/schedules.ts:619-639 | an operator's resolution of an open run finishes it and frees its slot, no other |
| SchedulerRestart.SoloChanges | src/gateway/schedules.ts:378-426 | pause, resume and update leave exactly what was asked for, counts and slots kept |
| SchedulerPause.PausedNeverFires | src/gateway/schedules.ts:383-389 | from the moment a pause is committed until somebody resumes the schedule no automatic fire is committed, not even one already on its way |
| SchedulerService.ExecuteFire | src/gateway/schedules.ts:502-604 | the method makes only the protocol's moves among any others, ends its task, and reports a dispatch only behind its own reservation and run record; undisturbed it sends exactly what the schedule admits |
| SchedulerService.Deliver | src/gateway/schedules.ts:574-603 | the dispatch leaves, and at one of the steps behind it its answer is recorded (running, finished or unknown) if the dispatched row is then current, and given up if it is not; undisturbed it is recorded |
| SchedulerService.Release | src/gateway/schedules.ts:606-617 | within four attempts; when it reports success the schedule holds no slot for the run, and undisturbed it succeeds |
| SchedulerService.CompleteRun | src/gateway/schedules.ts:619-639 | reported released only when no slot is left for the run and its record was finished since the call began; undisturbed it is released, an unfinished run is finished and a finished one not written again |
| SchedulerService.Recover | src/gateway/schedules.ts:180-210 | when it saves, the reservations left are those read without the dropped ones, in order; undisturbed it saves, and the dropped ones are exactly the runs found finished |
| CodexRefreshFence.RefreshesAreFenced | src/credentials/codex-subscription.ts:93-164 | over all interleavings of brokers, lease expiries and crashes, two native refreshes of the same credential are separated by a commit that stored that credential again; given that operators install only logins never seen before and the provider answers with the credential it was shown or a new one |
| CodexRefreshFence.RotatingProviderSeesEachOnce | src/credentials/codex-subscription.ts:93-198 | so a provider that rotates never sees a credential twice, if operators install only fresh logins |
| CodexClaims.CallsNeverExceedStorings | src/credentials/codex-subscription.ts:126-164 | whatever operators install: a credential is shown to the provider at most as often as it was claimed, and claimed at most as often as a commit or an install stored it |
| CodexClaims.ClaimsAreSeparated | src/credentials/codex-subscription.ts:126-145 | whatever operators install: two claims of one credential are separated by a commit that stored it or an install that brought it |
| CodexReinstall.ReinstallBreaksFenceIff | src/credentials/codex-subscription.ts:93-100 | after an install, in any reachable state, the credential may be claimed again with no commit of it in between if and only if it was claimed since it was last committed and the notes left beside it hold no intent for it |
| CodexRefreshFence.RunKeepsInv | src/credentials/codex-subscription.ts:54-198 | what the fence rests on holds in every state such a run reaches |
| CodexPublication.PublicationsAreOrdered | src/credentials/codex-subscription.ts:208-251 | as long as an output Secret is not deleted, a later write to it comes from the same authority commit or a later one |
| CodexPublication.PublicationsAreCommitted | src/credentials/codex-subscription.ts:225-251 | every access value written was committed earlier under the binding written beside it, and was the latest commit when the authority was proved unchanged, behind the read of its Secret |
| CodexPublication.PublicationGoesBackIff | src/credentials/codex-subscription.ts:225-251 | a later write to an output Secret goes back to an earlier commit if and only if it is a create whose Secret was read as absent before the earlier write, which was deleted since, and its authority was proved before the earlier write's commit |
| CodexRenewal.SoloRenews | src/credentials/codex-subscription.ts:54-198 | alone, a renewal calls the provider once, commits its answer and publishes that access under that binding |
| CodexRenewal.SoloAnswerCountsIff | src/credentials/codex-subscription.ts:126-175 | an answer to an undisturbed renewal is committed if and only if it comes within the minute of the lease and is good for more than another |
| CodexRenewal.DeletedOutputGoesBack | src/credentials/codex-subscription.ts:225-250 | such a run: a deleted output Secret is created again from an earlier commit |
| CodexRenewal.ReinstalledLoginCalledTwice | src/credentials/codex-subscription.ts:93-100 | such a run: an old login installed without its notes is shown to the provider twice |
| CodexRenewal.RenewProfile | src/credentials/codex-subscription.ts:54-100 | the method makes only the protocol's moves among any other brokers and ends with the outcome it returns |
| CodexRenewal.Decide | src/credentials/codex-subscription.ts:71-145 | exactly a foreign output, an invalid login and a running lease end the pass as such; a standing fence never leads to a call or a renewal, and the cached access is published only if it is usable |
| CodexRenewal.Rotate | src/credentials/codex-subscription.ts:126-156 | unless the claim is lost, the credential was claimed and then, behind it, shown to the provider |
| CodexRenewal.Conclude | src/credentials/codex-subscription.ts:157-198 | the answer is committed only over an authority read with this broker's own lease and the login it refreshed; anything else ends the pass uncommitted |
| CodexRenewal.Publish | src/credentials/codex-subscription.ts:208-251 | a write comes behind the proof of its authority, and that behind the read of its output, all within this call |
| GitHubBrokerProof.TokensAreDescribed | src/credentials/github-app.ts:95-120 | in every reachable state a token in the output Secret was minted under the configuration annotated beside it, and the expiry beside it is its own |
| GitHubBrokerProof.WritersHoldTheLock | src/credentials/github-app.ts:204-237 | every commit is by the holder of the lock claimed last, with no claim or commit in between, and of a token minted for that claim's configuration: a broker whose lock was replaced never writes |
| GitHubBrokerProof.ReadyMeansUsable | src/credentials/github-app.ts:85-88 | a profile is reported ready only on a token for its own configuration that is good for more than five minutes from when the pass began |
| GitHubBrokerProof.DelayIsBounded | src/credentials/github-app.ts:222-229 | retry delays grow from five seconds, never shrink while failures repeat, and are the five-minute cap from the seventh failure on |
| GitHubRenewal.RenewProfile | src/credentials/github-app.ts:62-122 | the method makes only the protocol's moves among any other brokers and ends with the outcome it returns |
| GitHubRenewal.Mint | src/credentials/github-app.ts:123-203 | a token is asked for only over a Secret that holds this broker's lock for fifteen more seconds; one that comes back is new, of this configuration, and good for five more minutes |
| GitHubRenewal.Conclude | src/credentials/github-app.ts:204-245 | the token, or one more failure, replaces exactly a Secret that was read with this broker's lock still running; anything else ends without a commit |
| GitHubRenewal.SoloRenews | src/credentials/github-app.ts:62-245 | alone, a renewal answered at once leaves the Secret with that token, its configuration and its expiry, unlocked and without failures |
| GitHubRenewal.SoloMintsIff | src/credentials/github-app.ts:147-237 | however long an undisturbed renewal takes, a token is asked for if and only if more than fifteen seconds of the minute's lock are left, and committed if and only if the lock still runs and the token is good for more than five minutes |
| CreationJournalProof.ExecutesOncePerKeptRecord | src/gateway/creation-journal.ts:228-262 | across gateways and restarts the callback runs at most once while the journal record is kept |
| CreationJournalProof.JournalOnlyAdvances | src/gateway/creation-journal.ts:116-138 | of two writes of one record the later has the larger revision and no earlier phase, and the earlier is not terminal: a stale recovery can never turn a completed creation into a failed one |
| CreationJournalProof.WritesAdvance | src/gateway/creation-journal.ts:242-259 | the same of any log of the protocol, with the request's fingerprint unchanged |
| CreationJournalProof.SendsAreAnnounced | src/gateway/workspace-operations.ts:504-510 | a workspace or agent create leaves only from the record's one execution, and only while the last thing the record says is that a create may be out |
| CreationJournalProof.KnownFailuresAreKnown | src/gateway/creation-journal.ts:260-271 | a creation recorded as failed with its outcome known: every create sent for it before either came back, as a later write tells, or was answered with a no |
| CreationJournalSole.OwnExecutionIsLeftAlone | src/gateway/creation-journal.ts:116-117 | no recovery of an instance, by a subscriber or a replay, closes what that instance is executing |
| CreationJournalSole.ReportsCommit | src/gateway/creation-journal.ts:242-272 | with one instance at a time, across its crashes, a live execution's next report commits unless its record was deleted |
| CreationJournalSole.ReportsCommitFromTheStart | src/gateway/creation-journal.ts:242-272 | so it is in every run of that instance from the beginning |
| CreationJournalService.RunCreation | src/gateway/creation-journal.ts:182-276 | the method makes only the protocol's moves; an executed creation settles with a terminal snapshot that the store accepted, a replay with the stored row or a terminal one |
| CreationJournalService.Progress | src/gateway/creation-journal.ts:242-259 | a report replaces exactly the row the executor holds and becomes that row, or leaves it |
| CreationJournalService.Recover | src/gateway/creation-journal.ts:116-138 | an open record nobody here executes is closed as failed, outcome unknown, or, if it changed since it was read, whatever is stored is returned instead; any other is returned as it was read |
| CreationJournalService.CreateWorkspace | src/gateway/workspace-operations.ts:748-765 | the workspace callback's reports in order; when it returns the workspace is named and ready |
| CreationJournalService.FinishAgent | src/gateway/workspace-operations.ts:724-747 | the agent's answer is reported as ready, prompted or failed |
| CreationJournalService.ReportAnswer | src/gateway/workspace-operations.ts:724-747 | an agent is reported ready, and prompted exactly if a prompt came with it; an answer without one is a failure whose outcome is known |
| CreationJournalService.SelectWorkspace | src/gateway/workspace-operations.ts:360-398 | an agent that needs its own workspace gets one behind a durable report; when it returns the workspace is named |
| CreationJournalService.SendAgent | src/gateway/workspace-operations.ts:447-521 | without a report the record stays as it was; with one it says that a create may be out, and the send left right behind it |
| CreationJournalService.Settle | src/gateway/creation-journal.ts:260-272 | a throw ends as failed, of unknown outcome exactly if a create may be out, and a callback that returned as completed or as the terminal snapshot it reported, or the run fails, the row having been replaced |
| CreationJournalService.SoloWorkspaceCompletes | src/gateway/creation-journal.ts:182-277 | undisturbed, a workspace creation completes in four reports, its one create sent behind the first |
| CreationJournalService.SoloThrows | src/gateway/creation-journal.ts:260-271 | an execution that throws is recorded as failed, of unknown outcome exactly if the record said that a create may be out |
| CreationJournalService.SoloRecovers | src/gateway/creation-journal.ts:116-138 | an open record of an earlier gateway is closed as failed, outcome unknown; a settled one, or one executed here, is left as it is |
| CreationJournalService.SoloReplayCloses | src/gateway/creation-journal.ts:228-241 | a creation interrupted by a crash and asked for again executes and sends nothing, and is closed as unknown |
| CreationReceiptProof.SentOncePerKeptReceipt | src/gateway/workspace-operations.ts:443-481 | a backend create is sent at most once per kept receipt, over any number of callers and lost replies |
| CreationReceiptProof.ReplaysRepeatTheAnswer | src/gateway/workspace-operations.ts:456-478 | a replay returns what is retained of the backend's own answer, and only to a request with the same fingerprint |
| CreationReceiptProof.SoloAnswers | src/gateway/workspace-operations.ts:447-521 | a create whose answer arrives undisturbed is sent once and its answer kept |
| CreationReceiptProof.SoloReplays | src/gateway/workspace-operations.ts:456-478 | asked again, the same request gets the kept answer, a different one or one without an answer nothing, and nothing is sent |
| AgentIdentityProof.RouteOnlyAdvances | src/gateway/agent-identity.ts:132-170 | a route goes absent, active, collision and no other way; its binding never changes and a collision is permanent |
| AgentIdentityProof.OneOwnerOrNone | src/gateway/agent-identity.ts:197-219 | whatever the caches hold, a GUID is claimed for one workspace UID only, resolves to one workspace only, the same, and never resolves again after any registry reported a collision |
| AgentIdentityProof.ClaimLoopIsShort | src/gateway/agent-identity.ts:142-170 | the claim loop needs at most two of its eight rounds and never gives up on an unmarked collision |
| AgentIdentityProof.RivalClaimQuarantines | src/gateway/agent-identity.ts:150-163 | a rival's claim that reaches its mark leaves the GUID quarantined |
| AgentIdentityProof.SoloRival | src/gateway/agent-identity.ts:132-168 | alone, a claim of a GUID bound elsewhere quarantines it, is refused, and makes its registry forget its cached claim of the other binding |
| AgentRegistry.ClaimDurable | src/gateway/agent-identity.ts:132-170 | success means the route is bound to this workspace UID, failure that it is quarantined; at most two rounds |
| AgentRegistry.ReserveForCreate | src/gateway/agent-identity.ts:173-194 | a reservation succeeds only by creating the active route, and what it answers is what the store decided |
| AgentRegistry.ResolveAgent | src/gateway/agent-identity.ts:197-219 | resolves exactly when the stored route is active, the legacy ID matches and the live workspace is in scope |
| AgentRegistry.VerifiedClaim | src/gateway/agent-routing.ts:82-95 | an identity is verified exactly when the durable route, read after the claim, is active for this workspace |
| ClaimLimits.Cache.Remember | src/gateway/agent-identity.ts:87-95 | the claim becomes the youngest entry, and beyond 4096 only the oldest go |
| ClaimLimits.Permits.Acquire | src/gateway/agent-identity.ts:97-101 | a permit is granted exactly while fewer than eight are out, else the caller queues last |
| ClaimLimits.Permits.Release | src/gateway/agent-identity.ts:102-108 | the permit passes to the first waiter, and is free only without one |
| ClaimLimits.Drain | src/gateway/agent-identity.ts:97-108 | once all holders release, every waiter has run, in its order, and the count is zero |
| ClaimLimits.MapBounded | src/gateway/agent-routing.ts:38-51 | the output is the map of the input in order, each item mapped once, at most eight at a time |
| ControllerService.ReconcileWorkspace | src/controller/controller.ts:230-371 | whatever others do meanwhile, all that happens are the moves of such a run, and everything one reconcile sends is safe (storage deleted only for an owned volume of an archived, torn-down workspace with pod and reader seen gone and retention expired; nothing foreign deleted; only the fields a branch may set, and a release only after the volume was seen gone); undisturbed it is the reconcile function |
| ControllerService.StopCompute | src/controller/controller.ts:88-154 | the same for `stop`, up to the pod |
| ControllerService.CollectStorage | src/controller/controller.ts:185-214 | the same for the volume past its retention |
| ControllerService.DeleteRuntime | src/kubernetes/client.ts:175-202 | Service and access Secret are both found to be the workspace's own before either is deleted |
| ControllerService.EnsureRuntime | src/controller/controller.ts:34-44 | what is seen of another owner is refused and what is seen absent is created, whatever others do; undisturbed that is the cluster's change |
| ControllerService.ReportStatus | src/controller/controller.ts:46-86 | an unchanged report writes nothing; any other is the report of this reconcile's own snapshot, under its version |
| ControllerService.TimesAreWriteOnce | src/controller/controller.ts:46-86 | over every run of reconciles that read and report at any times, edits of the spec, deletions and other moves, a recorded teardown, archival or storage release keeps its time |
| ControllerService.TimesComeInOrder | src/controller/controller.ts:88-228 | over every such run no storage release is recorded without an archival, and no archival without a teardown |
| ControllerConvergence.Converges | src/controller/controller.ts:88-371 | however long readers, slow pods and deletions take and however the clock moves: at most nineteen reconciles of an archived retained workspace write, beside those that find the volume still being deleted; and all rounds but nineteen wait for something that does not get done or find the workspace at rest; given working configuration and hooks |
| ControllerConvergence.RoundNearer | src/controller/controller.ts:88-371 | no round leads away from rest; it leads strictly nearer if it writes (but for the repeated report of a volume being deleted), if the workspace waits for nothing, or if what it waits for gets done; and it writes nothing exactly at rest or while what it waits for is announced and is not the volume |
| ControllerConvergence.StorageWaitsWrite | src/controller/controller.ts:185-210 | the report of a volume being deleted is written anew in every round the deletion takes |
| ControllerConvergence.RestStays | src/controller/controller.ts:181-228 | rest is left only when the clock passes the retention |
| HistoryCapture.CaptureTimeline | src/gateway/retained-history.ts:193-256 | the page loop ends and stays within its budgets on any backend; on a faithful append-only one the capture is a contiguous suffix of the rows at this call's first answered page, and all of them unless truncated; when the backend holds still it is exactly the longest suffix of whole pages within the budgets |
| HistoryCapture.CaptureAgents | src/gateway/retained-history.ts:187-274 | at most 100 agents, together within the snapshot budget, each captured as above from its own first answered page |
| RetainedHistory.TailWalkIsWhole | src/gateway/retained-history.ts:290-356 | following start cursors back from the tail yields every stored row exactly once, in order, at any limit |
| RetainedHistory.FrontWalkIsWhole | src/gateway/retained-history.ts:318-326 | following end cursors from the front yields every stored row exactly once, in order, if and only if no row starts at or before event zero |
| RetainedHistory.PageBefore | src/gateway/retained-history.ts:317-346 | a page before a row is the rows right before it, and says truly whether older ones follow |
| RetainedHistory.PageAfter | src/gateway/retained-history.ts:317-346 | a page after a row is the rows right after it, and says truly whether newer ones follow |
| HistoryReceipt.Publish | src/gateway/retained-history.ts:72-125 | publishing makes only the protocol's moves; it throws, or returns the receipt that stood at its last request, its own or one not older; undisturbed, the later of the two captures of the workspace |
| HistoryReceipt.ReceiptsAreOrdered | src/gateway/retained-history.ts:77-121 | over any publishers, crashes, lost replies and retention deletes: between two deletions every write is of a newer capture of the workspace |
| HistoryReceipt.ReceiptGoesBackIff | src/gateway/agent-inventory.ts:244-245 | the receipt goes back behind a write if and only if a publication that had found no receipt creates one that is not newer after that write's receipt was deleted |
| HistoryReceipt.OldReceiptReturns | src/gateway/agent-inventory.ts:244-245 | such a run: a publication that read no receipt creates its own after a newer one was published and deleted |
| HistoryReaders.Readers.Serve | src/kubernetes/client.ts:498-610 | any calls, in any order of their steps: after every step at most four calls are open, which is what is counted, no two reads of one workspace overlap, a read comes behind every earlier call of its workspace, and a queued call may go on exactly when those have ended |
| HistoryReaders.TurnCameIff | src/kubernetes/client.ts:507-510 | the chained tail a call waits for is resolved if and only if every earlier call of the workspace has ended, however many of them were cancelled while queued |
| HistoryReaders.Readers.Arrive | src/kubernetes/client.ts:498-510 | a call is refused at capacity, else chained behind the workspace's tail |
| HistoryReaders.Readers.Wake | src/kubernetes/client.ts:542-546 | a queued call goes on only when the tail ahead resolved, cancelled calls included |
| HistoryReaders.Readers.End | src/kubernetes/client.ts:602-610 | a call that ends, however it ends, releases its turn and its place |
| HistoryReaders.Readers.Settle | src/kubernetes/client.ts:511-513 | a resolved tail is forgotten only while it is the workspace's last |
| UploadStaging.Session.Begin | src/gateway/uploads.ts:73-106 | an announced upload is admitted exactly when its ID is free, its metadata is well formed and it fits both the session's and the shared budget; it then takes its size from that budget, which stays within 64 MiB, or changes nothing more |
| UploadStaging.Session.Binary | src/gateway/uploads.ts:108-163 | a frame changes only the transfer it names, as the receiver function says; a complete file is staged with exactly the bytes accepted and the shared count unchanged |
| UploadStaging.Transfer.Take | src/gateway/uploads.ts:113-143 | the buffer filled in place holds exactly the accepted payloads in order |
| UploadStaging.Session.Expire | src/gateway/uploads.ts:49-65 | exactly the expired transfers and files go, and exactly their bytes are given back |
| UploadStaging.Session.Consume | src/gateway/uploads.ts:179-190 | a staged file is handed out exactly to a handle with its ID, name, MIME type, size and path, and at most once |
| UploadStaging.Session.Clear | src/gateway/uploads.ts:257-264 | everything but what is in flight is given back |
| UploadGateway.Gateway.Serve | src/gateway/uploads.ts:39-71 | any number of sessions of one gateway connecting, announcing, sending, expiring, closing, handing out and giving back, in any order: after every step the shared counter is exactly what they hold together, and within 0 to 64 MiB |
| UploadGateway.Gateway.Do | src/gateway/uploads.ts:49-190 | one step of anybody: made whenever it is due, its session's rows change exactly as the step says, no other session's, and no handed-out file is taken back |
| UploadGateway.Gateway.Replace | src/gateway/uploads.ts:166-255 | a message's attachments are handed over one after the other up to the first that fails; whatever every session does during the awaits, the connection gets exactly the frames of the staged files behind what was sent before, each file is handed out to this message alone, and the counter stays exact |
| UploadGateway.Gateway.HandOver | src/gateway/uploads.ts:174-253 | one file: consumed exactly if it matches, its bytes given back however the sending ends; over a connection that does not fail it is sent exactly when such a file is staged |
| UploadGateway.HandedOutOnce | src/gateway/uploads.ts:179-190 | no attachment of a message names a file handed out before, nor do two of them name one file |
| UploadGateway.Gateway.ReservedInRange | src/gateway/uploads.ts:88-103 | a counter that is the sum of what the sessions hold, and admitted by the checks, lies within 0 to 64 MiB |
| UploadStaging.SendFile | src/gateway/uploads.ts:191-236 | at no point is more than a mebibyte of chunk data sent since the last validation, what was sent is always a prefix of the file's frames, and the end frame follows a validation |
| UploadStaging.HandedOverFileRebuilds | src/gateway/uploads.ts:191-236 | a receiver like the gateway's own takes the frames of a file sent to the end and gets exactly the staged bytes |
| UploadFrames.SentFramesRebuild | src/gateway/uploads.ts:204-236 | the frames a file is sent in are accepted by the receiver and rebuild its bytes |
| UploadFrames.CompleteIsPayload | src/gateway/uploads.ts:130-163 | a completed file is the concatenation of the accepted payloads, of the declared size |
| ScopedId.ParseScoped | src/domain.ts:141-151 | parsing undoes scoping exactly for named workspaces and non-empty UTF-8 IDs |
| ScopedId.ScopedParse | src/domain.ts:145-151 | scoping undoes parsing: an accepted ID is the one its parts make |
| ScopedId.DecodeEncode | src/domain.ts:141-149 | base64url decoding undoes encoding for all bytes, in digits of the alphabet only |
| ScopedId.ScopedInjective | src/domain.ts:141-143 | no ID names two backends and no backend has two IDs |
| Routing.OutAfterInIff | src/gateway/routing.ts:43-89 | on every message the inward pass accepts, at any depth, outward after inward is the identity if and only if every project key on the walk holds the workspace's project already and every agent ID of a create record is one the outward pass leaves alone |
| Routing.InAfterOutIff | src/gateway/routing.ts:43-89 | on every message of a daemon, at any depth, inward after outward is the identity if and only if every scoped ID on the walk is non-empty UTF-8 of a named workspace, every workspace ID the daemon's own, every project key the workspace's project, and every agent ID of a create record one the outward pass leaves alone |
| Routing.CreateIdIsScopedOnReturn | src/gateway/routing.ts:56-60 | an ID chosen on creation passes in unchanged but would be scoped on the way out, so create records are rightly excluded |
| TerminalSlots.Slots.Outward | src/gateway/routing.ts:123-132 | a binding keeps its slot, a new one takes the lowest free slot, and only a full table fails |
| TerminalSlots.OutwardThenInward | src/gateway/routing.ts:121-137 | a slot leads back to the binding it was announced for, whatever was bound since |
| DirectoryPages.Follow | src/gateway/catalog.ts:90-160 | following nextCursor at any positive limits and times, with anything else served in between: the rows come once and in order with the same sync on every page; a request is refused if and only if the snapshot is no longer held then, and with none refused all rows come within as many requests as there are; within five minutes, with fewer than four further listings kept that fit the byte budget, none is |
| DirectoryPages.Pages.First | src/gateway/catalog.ts:122-147 | the store stays within four snapshots and 12 MiB with syncs only of snapshots, the table moves as the table function says, and the page is the first of the listing |
| DirectoryPages.Pages.Next | src/gateway/catalog.ts:106-121 | a later page is served exactly when the snapshot is live, of the same key and long enough, and is the listing's page there |
| DirectoryPages.Pages.Evict | src/gateway/catalog.ts:129-139 | the eviction loop ends with the snapshots the eviction function leaves |
| DirectoryPages.EvictedIsEnd | src/gateway/catalog.ts:129-139 | eviction drops the oldest snapshots only |
| DirectoryPages.GentleHolds | src/gateway/catalog.ts:106-147 | a snapshot is still held at every request within its five minutes as long as fewer than four further listings, fitting the byte budget with it, were kept |
| DirectoryPages.PreviousLeadsBack | src/gateway/catalog.ts:148-159 | every page but the first has a previous one: a whole page back it leads here again, with the rows right before, and otherwise it is the first |
| WorkspaceLabels.ChangeKeepsGood | src/gateway/workspace-labels.ts:147-182 | every change keeps label names unique, names in use defined, and assignments free of duplicates and one per workspace |
| WorkspaceLabels.UpdateKeepsGood | src/gateway/workspace-labels.ts:280-298 | a rename makes no duplicate, because the new name was not defined |
| WorkspaceLabels.AssignSets | src/gateway/workspace-labels.ts:232-266 | assigning or unassigning changes that label of that workspace and no other label or workspace; an earlier workspace of the same name keeps its labels unless this one gets its first; a label assigned is in the catalog, which otherwise stays |
| WorkspaceLabels.RenameAndDeleteMoveLabels | src/gateway/workspace-labels.ts:283-320 | a rename puts the new name exactly where the old was; a delete removes the label everywhere and nothing else |
| WorkspaceLabels.ChangeCatalog | src/gateway/workspace-labels.ts:147-182 | under compare-and-swap retries the catalog stays good and a successful change is the change of the very catalog it replaced |
| WorkspaceLabels.Publish | src/gateway/workspace-labels.ts:98-140 | the notices sent, applied to what a subscriber has seen, give exactly the visible catalog, and none is idle |
| WorkspaceLabels.VisibleUnique | src/gateway/workspace-labels.ts:90-96 | what anybody is shown has no name twice |
| LabelViews.NoticesRetell | src/gateway/workspace-labels.ts:98-140 | notices heard by a client that does not show what they were worked out against put exactly what changed there over what the client shows |
| LabelViews.ShowsNewestIff | src/gateway/workspace-labels.ts:98-140 | for any list and notices behind it: the client shows the newest catalog whatever the catalogs contain if and only if everything it was told is overruled but the newest, that is, led on by what was told behind it to the newest version or back to where it came from |
| LabelFreshness.UpToDateIff | src/gateway/workspace-labels.ts:98-230 | over every interleaving of changes, publications, listings and releases: a subscribed client is up to date, whatever the catalogs contain, if and only if all it was told since its last list is so overruled |
| LabelFreshness.NewestSeenUnless | src/gateway/workspace-labels.ts:98-230 | once a publication that read behind the last change is through, a subscription in the map was shown the newest catalog last if and only if it was not told an older one behind the newest with nothing newest since, nor listed, from before the change, behind the pick of its entry or the end of that publication with nothing newest told it at all |
| LabelFreshness.UndisturbedShowsLast | src/gateway/workspace-labels.ts:98-230 | a client that no publication told of a replaced subscription since its last list shows what its subscription was shown last |
| LabelFreshness.UndisturbedUpToDateIff | src/gateway/workspace-labels.ts:98-230 | so for such a client that condition decides whether it shows the newest catalog, whatever the catalogs contain |
| LabelFreshness.GoesBackIff | src/gateway/workspace-labels.ts:98-230 | a client is sent back to an older catalog exactly when the publication or listing that tells it now read before a change, and the one that told it earlier read behind that change |
| LabelStrayNotice.StrayNoticeStays | src/gateway/workspace-labels.ts:98-230 | a run in which a notice for a subscription replaced meanwhile leaves a deleted label on the client, although a publication that read behind the last change is through, nothing overtook it and it missed nothing |
| AgentListing.Follow | src/gateway/session.ts:1252-1273 | folding any sequence of broad active listings leaves a client with exactly the agents the session remembers |
| AgentListing.Session.List | src/gateway/session.ts:1111-1273 | one listing drops no agent of an unreadable workspace and every other agent no longer listed; it is a snapshot, a change or a refusal exactly as the fence, the unreadable workspaces and the number of removals say, and a refusal changes nothing |
| AgentListing.Collect | src/gateway/session.ts:1128-1218 | the rows are those of the readable workspaces, the unknown UIDs those of the others |
| AgentListing.Tombstones | src/gateway/session.ts:1230-1250 | the removals start from the retained agents of archived workspaces |

## Left out

- SchedulerKept.UnfinishedRunsHoldOneSlot: assumes that the run's record is deleted only while no pending create, release or recovery relies on it; the exact condition is `UnfinishedRunsHoldOneSlotIff`, the steps that break it `StepKeepsPromiseIff`.
- CodexRefreshFence.RefreshesAreFenced: assumes that operators install only logins never seen before, and that the provider answers with the credential it was shown or a new one; without that `ClaimsAreSeparated`, `CallsNeverExceedStorings` and `ReinstallBreaksFenceIff` say what is left.
- CodexRefreshFence.RotatingProviderSeesEachOnce: assumes that operators install only logins never used before; `ReinstalledLoginCalledTwice` is a run without that.
- CodexRefreshFence.RunKeepsInv: has the assumptions of `RefreshesAreFenced`.
- AgentListing.Session.List: assumes that agent GUIDs are unique and every row names its workspace, and leaves out updates pushed between listings.
- Routing.OutAfterInIff, Routing.InAfterOutIff: integer-like keys, which JavaScript reorders, and a key `__proto__`, which the assignment to the result drops, are not modelled.
- ControllerConvergence.Converges: is about the undisturbed reconcile and an environment that goes forward: no new reader appears, a ready pod stays ready, and configuration and hooks work; image and resource contents, and the running and suspended paths, are not part of it.
- HistoryCapture.CaptureAgents: takes the agents of a listing as given; the listing's own cursors and the capture deadline are not modelled.
- UploadGateway.Gateway.Replace: other sessions move before and after the frames of a file, not between two of them, which they cannot tell apart; closing the connection after a failed send, and the daemon's reply, are not modelled.
- UploadStaging.Session.Consume: a staged file's bytes are handed over as a value, so the sharing of its buffer is not captured; lengths of names are counted in characters.
- Scheduler: one schedule; other schedules matter only through capacity, which may refuse any fire; the in-process table of running dispatches is left out, which only allows more interleavings; when pruning runs is left open, but it deletes only finished runs beyond the newest of a positive limit.
- Schedule observation, shutdown and the agent bindings of schedules: no effect on the records modelled.
- Codex: one authority Secret; the stages of a native failure and the contents of access values.
- GitHub App: signing, the HTTP exchange and the scope check of its answer, which count as one answer that is usable or not.
- LabelFreshness.UpToDateIff: what a subscriber may see is taken not to change during a run, and a catalog's contents are what it sees of it; lists without a subscription are left out.
- Creation journal: subscriptions, their notices and access checks: between a report and the create it announces the code also awaits publishing the report to its listeners, which may throw and then keeps the create from being sent; the journal knows the create calls only as awaits that return, answer or throw.
- Workspace controller: the count of running pods against the limits is one answer, as are the checks of credential references; the retry queue around reconcile.
- Transcript reader pods, their creation and polling; only the queue in front of them is modelled.
- Directory sorting and descriptors, the text form of page cursors, label sync generations and principals beyond what they may see.
- WebSocket, HTTP and TLS plumbing, manifests, cryptography, schema parsing, provider catalogs, project references and admission: weaker or repeated properties.
