# A model of the incident engine and the message store

This project models the parts of the log service that decide something over time, and proves what they
promise. It has five parts.

**The incident engine.** Connectivity evidence about a (host, interface) pair moves a tracker through healthy,
pending failure, active and pending recovery. Timers debounce failures and recoveries; an activated or resolved
incident creates notification jobs; primary and fallback incidents of one host interact through escalation jobs.
`IncidentState` defines the state, one timer firing and the closed form of firing all due timers (`Settle`).
`Service` (module `IncidentService`) updates the maps in place as the source does, and each of its methods is
proved against those functions; `AnyState` says what they do in states without the invariant, where evidence
came late, and `EvidenceCases` the same case by case, apart from the engine's phases. The order in which Go
iterates over a map is a nondeterministic choice everywhere.

**The rebuild.** `Rebuild` replays the whole log, keeps what was known about incidents found again and
back-fills jobs from interval arithmetic.

**The store and its queries.** A partition is a string of newline-terminated lines. The cached index of a
partition is reused, extended or rescanned; a query merges the indexes with a heap; a page asks for one record
more than it shows.

**The cursor reader and the worker.** Partitions are read from cursors guarded by fingerprints. A pass of the
worker reads, applies or rebuilds, fires timers and sends the jobs that are due. `Eligibility` says which
records may cause a notification, `Outbox` what becomes of the jobs. `Recovery` is the checkpoint protocol as a
state machine: appends, applies and ticks whose saves may fail, deliveries, crashes at any step;
`PassRefinement` shows that the worker's passes are histories of it, `Rereading` that reading again from older
cursors makes the same observations, and `Durability` puts them together: over a store that grows, crashes make
no difference.

**The classifier.** Which log lines are evidence, and of what.

Conventions. Instants are integers, `ZERO_TIME` is Go's zero time. A *monotone run* is one in which no
evidence and no tick is older than an earlier one; the results about the engine assume it where they say so.
Without it, `LateEvidence.LateEvidenceInverts` shows what happens, and `AnyState` what holds nevertheless. An
*execution* is what the service's methods do with a list of events, in whatever map order. Evidence is *accepted*
when it is neither stale, nor observe-only, nor held back by the reachability gate. `incidentID` and the SHA-256
fingerprints are taken to be injective. JSON decoding is an arbitrary partial function on lines, the text filter an
arbitrary predicate on messages. Saves, notifier answers and retry jitter are inputs. Ghost parameters named `clock`
only name the instant from which a caller knows its run to be monotone.

How the main results fit together: the loop of `Service.Advance` is a legal run of firings. In every reachable
state every complete legal run leaves the same trackers and incidents (`TimerLoop.CoresConverge`), so every execution
ends with those of the specification's run (`AnyState.ExecutesCore`), however late its evidence. Within the
invariant, which monotone runs keep (`Runs.RunKeepsInv`), it ends with the same jobs as well
(`TimerLoop.RunsConverge`, `AnyState.ExecutesIsRun`): those wanted by the interval specification in `JobSpec`. So the
theorems about runs (`Runs`, `Isolation`, `Rebuilding`, `Histories`, `Recovery`) hold of the service; those about
evidence that comes late (`Replay`, `LateEvidence`) speak of its executions. What `Worker.Reconcile` and
`Worker.Tick` promise (`PassPromised`, `TickPromised`) ties a pass to runs, `PassRefinement.PassIsHistory` to the
protocol, and `Durability.WholeLogState` to the store.

## Model

| member | source | states |
|---|---|---|
| IncidentService.Service.NextDueTracker | internal/incidents/engine.go:469-508 | returns an orphaned tracker if there is one, otherwise a due tracker that no other due tracker precedes by (due time, priority); finds one exactly when something is due, whatever the map order |
| IncidentService.Service.PrimaryDownAt | internal/incidents/engine.go:510-520 | returns some primary incident of the host that covers the instant, and none only if there is none |
| IncidentService.Service.EscalateAllFallbacks | internal/incidents/engine.go:522-542 | adds an escalation for exactly the notifying fallbacks of the host that are active or recovering, and leaves existing jobs alone |
| IncidentService.Service.EnqueueJob | internal/incidents/engine.go:533-556 | a job is created once: an existing job with the same id is untouched |
| IncidentService.Service.OpenIncident | internal/incidents/engine.go:412-443 | the pending-failure branch is one firing of the specification, with a legal choice of primary |
| IncidentService.Service.CloseIncident | internal/incidents/engine.go:444-463 | the pending-recovery branch is one firing of the specification |
| IncidentService.Service.Advance | internal/incidents/engine.go:404-467 | terminates on every state, orphans included; is a legal run of firings; leaves nothing due; reports a change exactly when something was due; under the invariant ends in the closed form |
| IncidentService.Service.Tick | internal/incidents/engine.go:394-402 | in any state: the timers due fire in some legal order, and are saved exactly when one fired; within the invariant it ends in the closed form even if the save fails |
| IncidentService.Service.TouchIncident | internal/incidents/engine.go:332-388 | evidence is noted on the tracker's own incident and nowhere else |
| IncidentService.Service.AcceptEvidence | internal/incidents/engine.go:309-391 | the switch on polarity and phase is the specification's step |
| IncidentService.Service.ObserveEvidence | internal/incidents/engine.go:285-392 | in any state: stale and observe-only evidence fires no timer; otherwise the timers due by the evidence fire in some legal order, and the evidence is accepted unless gated; within the invariant the result is one function of the old state |
| EvidenceCases.OnlineCounts | internal/incidents/engine.go:304-308 | after the timers due, online evidence that is not late changes nothing exactly if it is about the primary interface, whose failure was found by reachability, and is not reachability evidence; otherwise it is the last evidence, a failure still pending is gone, and an outage is recovering since |
| EvidenceCases.EvidenceExact | internal/incidents/engine.go:304-392 | the possible outcomes of evidence that is not late, told by the state of the incident the interface is busy with, field by field: for online and offline evidence, after the timers due |
| EvidenceCases.LateExact | internal/incidents/engine.go:293-295 | evidence older than the interface's last one changes nothing, not even the timers |
| EvidenceCases.NotedExact | internal/incidents/engine.go:296-303 | evidence that is only to be noted sets the time of the last evidence, and changes nothing else |
| EvidenceCases.TimerExact | internal/incidents/engine.go:404-467 | a failure becomes an outage once its debounce has passed and a recovery ends it once its own has, each dated from its deadline; until then nothing changes |
| EvidenceCases.TimersElsewhere | internal/incidents/engine.go:404-467 | timers change no idle tracker and no resolved incident, and add and remove none |
| EvidenceCases.OrphanExact | internal/incidents/engine.go:412-417 | a pending tracker whose incident is missing is dropped when it is picked, and nothing else changes |
| IncidentService.Service.ObserveOne | internal/incidents/engine.go:192-200 | in any state: one observation, saved afterwards; on a failed save the change stays in memory |
| IncidentService.Service.ObserveAll | internal/incidents/engine.go:205-207 | in any state: the observations of a batch, in order; a monotone batch is the run of its observations |
| IncidentService.Service.Apply | internal/incidents/engine.go:202-212 | in any state: a batch in order; derived state and cursors are saved together or not at all; a monotone batch is a run |
| AnyState.ExecutesIsRun | internal/incidents/engine.go:192-212 | monotone events from a state with the invariant have one outcome, jobs included, whatever the map order: the run of the specification |
| AnyState.ExecutesCore | internal/incidents/engine.go:285-508 | whatever the events and however late their evidence, trackers and incidents have one outcome, the function of the specification |
| AnyState.ReachableIsWellOwned | internal/incidents/engine.go:285-508 | in every reachable state, monotone or not, after rebuilds too: no tracker is orphaned, busy trackers and unresolved incidents own each other one to one, incidents are filed under their own ids |
| AnyState.ExecutionExists | internal/incidents/engine.go:192-212 | any events can be executed from any state |
| IncidentService.Service.MergeIncidentNotifications | internal/incidents/engine.go:222-227 | a replayed incident notifies if it does or did before |
| IncidentService.Service.MergeTrackerNotifications | internal/incidents/engine.go:228-233 | trackers take the notification choice of their incident |
| IncidentService.Service.KeepSurvivingJobs | internal/incidents/engine.go:234-238 | jobs of incidents found again are kept as they were, delivery fields included |
| IncidentService.Service.Backfill | internal/incidents/engine.go:239-269 | adds the opening, closing and escalation jobs of every notifying activated incident, with any legal choice of primary, and nothing else; within the invariant these are exactly the missing wanted jobs, created as they would have been |
| AnyState.FillsAllIsGrown | internal/incidents/engine.go:239-269 | within the invariant the back-fill does not depend on the primaries found and adds exactly the wanted jobs |
| IncidentService.Service.Rebuild | internal/incidents/engine.go:214-271 | for any log: replay, merge and back-fill, saved together with the cursors or not at all; for a monotone log the state is the rebuilt state of the specification |
| AnyState.RebuildsIsRebuilt | internal/incidents/engine.go:214-271 | rebuilding from a monotone log has one outcome |
| AnyState.RebuildsCore | internal/incidents/engine.go:214-271 | rebuilding from any log has one outcome for trackers and incidents, and keeps who owns what |
| IncidentService.Service.MarkNotificationSent | internal/incidents/engine.go:616-635 | the receipt is recorded and saved, or nothing changes |
| IncidentService.Service.MarkNotificationFailed | internal/incidents/engine.go:637-655 | the failure is recorded and saved, or nothing changes |
| IncidentService.Service.Load | internal/incidents/engine.go:164-190 | a restart loads the last snapshot saved |
| IncidentService.ReachesKeyed | internal/incidents/engine.go:544-556 | no run of firings files a job under another job's id |
| TimerLoop.RunsConverge | internal/incidents/engine.go:404-508 | confluence: however maps are iterated, every complete run of the timer loop ends in the same state |
| TimerLoop.CoresConverge | internal/incidents/engine.go:404-508 | in every reachable state, however late its evidence, every complete run of the timer loop leaves the same trackers and incidents |
| TimerLoop.RunExists | internal/incidents/engine.go:404-508 | from every state with the invariant there is a complete run of the loop |
| TimerLoop.AdvanceComposes | internal/incidents/engine.go:404-467 | advancing to t1 and then to t2 equals advancing to t2 |
| TimerLoop.FiringsInOrder | internal/incidents/engine.go:469-508 | timers fire in non-decreasing time order within one call, none later than its instant |
| TimerLoop.JobsInOrder | internal/incidents/engine.go:404-467 | within one call, whatever the firings so far created is dated no later than whatever a later firing creates |
| TimerLoop.FireShrinks | internal/incidents/engine.go:404-467 | every firing removes one pending tracker, which is why the loop ends |
| FiringJobs.FreshIsNewlyWanted | internal/incidents/engine.go:411-463 | the jobs a firing creates are exactly those that become wanted by it |
| FiringJobs.FireGrowsJobs | internal/incidents/engine.go:411-463 | a firing adds exactly the newly wanted jobs, each with the wanted creation time, and changes no other |
| Outbox.FiringAddsOnlyDue | internal/incidents/engine.go:533-556 | in any state: a job a firing creates tells of the incident its id names, was never tried, and is due exactly from its creation on, which is no later than the call; the others are as they were |
| Outbox.ExecutionAddsOnlyDue | internal/incidents/engine.go:192-212 | however late the evidence: all jobs that events other than marks create are to be sent, now at the latest |
| Outbox.RebuildAddsOnlyDue | internal/incidents/engine.go:214-271 | a rebuild keeps exactly the jobs of incidents it finds again, as they were, and each job it adds is to be sent |
| Outbox.BackfillExact | internal/incidents/engine.go:239-269 | in any state, told by the job: which jobs the back-fill of an incident creates, and when each is dated |
| Outbox.EveryJobIsQueued | internal/incidents/engine.go:603-614 | whatever evidence and ticks came since the start, the queue of a dispatch then holds every job there is |
| Invariant.OnePrimaryDown | internal/incidents/engine.go:510-520 | at most one primary incident of a host covers any instant |
| Observing.AcceptKeepsInv | internal/incidents/engine.go:309-391 | accepted evidence keeps the invariant |
| Observing.AcceptKeepsShape | internal/incidents/engine.go:309-391 | accepted evidence, however late, keeps who owns what |
| Observing.ObserveKeepsInv | internal/incidents/engine.go:285-392 | every observation that is not late keeps the invariant and the exactness of the jobs |
| Runs.RunKeepsInv | internal/incidents/engine.go:192-212 | every monotone run of evidence, ticks and delivery marks keeps the invariant |
| Runs.EscalationIsOverlap | internal/incidents/engine.go:522-556 | after any monotone run, fallback f was escalated because of primary p exactly when f notifies and both, on one host, were down at a common instant; the job dates from the first such instant |
| Runs.OverlapIsSharedInstant | internal/incidents/engine.go:510-520 | the interval condition of the specification means that both are down at some instant |
| Runs.LifecycleJobsExact | internal/incidents/engine.go:426-461 | opened and resolved jobs exist exactly for the notifying incidents that were activated and resolved; a fallback opens on its own exactly when no primary was down at its activation; jobs date from the activation or the resolution |
| Runs.StateWellFormed | internal/incidents/engine.go:412-450 | no tracker is orphaned, busy trackers and unresolved incidents own each other one to one and in step, every job names an activated notifying incident; the missing-incident branches are dead |
| Isolation.HostIsolation | internal/incidents/engine.go:285-309 | the incidents and jobs of a host after a final tick are those of its own evidence alone, without intermediate ticks |
| Isolation.RunsMirror | internal/incidents/engine.go:285-467 | the simulation behind host isolation and tick erasure |
| Rebuilding.RebuildAgrees | internal/incidents/engine.go:214-271 | rebuilding from a run's own evidence, judged no more eligible, and ticking gives the very state that ticking alone gives, delivery fields of old jobs included |
| Rebuilding.BackfillIsWanted | internal/incidents/engine.go:239-269 | the back-fill of an incident creates exactly the wanted jobs of that incident |
| Rebuilding.MergeKeepsInv | internal/incidents/engine.go:222-233 | merging old notification choices keeps the invariant |
| Histories.OfflineStartsDebounce | internal/incidents/engine.go:313-331 | accepted offline evidence about an idle key starts the debounce of a new incident, due after the configured delay |
| Histories.FailureDebounceExact | internal/incidents/engine.go:412-425 | from any state, for any incident and instant: the incident is activated then if and only if, once the instant it starts in is past, it is in its failure debounce with that deadline and no online evidence about its key is accepted before it; in the end it is activated, gone, or still within its debounce |
| Histories.FailureDebounceSustained | internal/incidents/engine.go:313-369 | activation at the deadline means that no online evidence was accepted since the failure began, exactly unless the incident was cancelled and started again within its instant |
| Histories.SustainedFails | internal/incidents/engine.go:313-369 | an unbroken failure is one that stands past its instant and was not broken within it |
| Histories.BreakCancels | internal/incidents/engine.go:367-369 | online evidence in the failure debounce removes the incident at once |
| Histories.RecoverySustained | internal/incidents/engine.go:444-463 | a recovering incident is resolved at exactly the end of its recovery debounce if no offline evidence is accepted before it |
| Histories.RecoveryDebounceExact | internal/incidents/engine.go:342-381 | a recovering incident is resolved at exactly its deadline if and only if, once the instant its recovery began in is past, it is recovering and no offline evidence about its key is accepted before the deadline |
| Histories.RecoveryDebounceSustained | internal/incidents/engine.go:342-381 | resolution at the deadline means that no offline evidence was accepted since the recovery began, exactly unless the recovery was broken and begun again within that instant |
| Histories.SustainedResumes | internal/incidents/engine.go:342-381 | an unbroken recovery is one that is recovering past its instant and was not broken within it |
| Histories.TieRestarts | internal/incidents/engine.go:342-381 | a recovery broken and begun again within its instant keeps its deadline, and the incident resolves there although the recovery was broken |
| Histories.RecoveryBroken | internal/incidents/engine.go:342-353 | the first offline evidence in the recovery debounce makes the same incident active again and erases the recovery |
| Histories.ThresholdsCaptured | README.md:49-51 | an incident keeps the thresholds it started with, whatever thresholds later steps run under |
| LateEvidence.ResolutionAfterActivation | internal/incidents/engine.go:370-381 | however late accepted recovery evidence is, the incident resolves at its time plus the recovery debounce; so after its activation exactly when the evidence is later than the activation less the debounce |
| LateEvidence.LateEvidenceInverts | internal/incidents/engine.go:370-381 | every execution of one run with evidence older than a tick ends the incident before it began |
| Replay.ReachabilityGateHolds | internal/incidents/engine.go:304-308 | a primary incident that failed by reachability is neither cancelled nor recovering until online reachability evidence about it arrives |
| Replay.ReachabilityClosesGate | internal/incidents/engine.go:316-355 | accepted offline reachability evidence closes the gate |
| Replay.ReplayIsHarmless | README.md:56-58 | after any monotone execution whose times per key strictly increase, observing any of its observations again, in whatever map order, changes no incident, job or tracker phase |
| Replay.EchoExact | internal/incidents/engine.go:285-392 | in any state with the invariant, an observation, however late, changes nothing but a last evidence time exactly if it is stale or observe-only for a known key, or no timer is due by it and it is gated, repeats health or is already noted; whatever the map order |
| Replay.ReplayHarmlessExact | internal/incidents/engine.go:199-201 | after any monotone execution, observing any observation changes no incident, job or tracker phase exactly under that condition |
| Replay.ReplayNeedsStrictTimes | internal/incidents/engine.go:293-295 | with two observations at one instant, replaying the first starts a new incident |
| Recovery.StepKeepsNodeInv | internal/incidents/engine.go:199-212 | every step of the protocol, saves failing or not, keeps memory and disk equal to what the records below their cursors determine, up to a tick |
| Recovery.RunKeepsNodeInv | internal/incidents/engine.go:199-212 | the same over whole histories, crashes included |
| Recovery.CrashEquivalence | README.md:53-60 | after any history, crashing and reconciling reaches the trackers, incidents and job ids that reconciling without the crash reaches |
| Recovery.OutboxSafety | internal/incidents/engine.go:616-635 | a snapshot marks a job sent only if its send succeeded, and a job whose receipt was saved is never sent again |
| Recovery.StepKeepsOutbox | internal/incidents/engine.go:616-655 | every step keeps receipts honest and durable |
| PassRefinement.PassIsHistory | internal/incidents/worker.go:98-183 | a reconciliation without rebuild is a history of the checkpoint protocol: append, apply, tick, deliver; memory and disk end as the service and its last snapshot do, also after a crash left records unread, and whichever save failed |
| PassRefinement.TickIsHistory | internal/incidents/worker.go:185-192 | a tick of the worker is a history of the checkpoint protocol, whether or not its save fails; the disk ends as the last snapshot does |
| Rereading.RereadingAgrees | README.md:53-60 | reading again from the cursors of the last snapshot, as after a crash, makes the observations the passes since made, in their order, and ends with their cursors, if the passes read the log in its order |
| Rereading.LogSplits | internal/storage/append_reader.go:48-147 | where the log grew at its end, visiting from the cursors of an earlier visit reads exactly the rest of the log, in its order |
| Durability.HistoryIsHistory | internal/incidents/worker.go:98-192 | every history of passes, ticks, failed saves and restarts over a growing store is a history of the checkpoint protocol |
| Durability.WholeLogState | README.md:53-60 | whatever came before, a pass over a growing store whose evidence is applied and saved leaves the trackers and incidents that the whole log since the bootstrap leads to, and exactly the jobs they want |
| Durability.CrashesMakeNoDifference | README.md:53-60 | any two histories of one growing store, with crashes or without, end with the same trackers, incidents and jobs, created alike |
| Reconciling.RebuildsAlike | internal/incidents/engine.go:214-238 | rebuilding over a changed log with and without a crash before it leaves the same trackers and incidents but for the notification choice |
| Delivery.RetryDelay | internal/incidents/worker.go:327-337 | the delay is positive and lies within a tenth of the backoff, whose minutes Outbox.BackoffDoubles gives |
| Delivery.OutcomeNotDue | internal/incidents/worker.go:194-237 | whatever became of a job, it is not due again at that instant, and a failed one is retried strictly later |
| Outbox.OutcomeExact | internal/incidents/engine.go:616-655 | field by field: a delivery records its receipt; anything else counts one attempt more and records the error, and when to try again unless it failed for good |
| Outbox.DueAgainExact | internal/incidents/worker.go:194-237 | a job delivered or failed for good is never due again; one to be retried is due exactly from its next attempt on, which is later |
| Outbox.AllAreSent | internal/incidents/worker.go:194-237 | when the notifier accepts and every outcome is saved, each due job is delivered once and has its receipt, and no other job is touched |
| Outbox.BackoffDoubles | internal/incidents/worker.go:327-332 | the first retry waits a minute, each later one twice as long as the one before, up to an hour |
| Outbox.BackoffAfterFailures | internal/incidents/worker.go:211-237 | n failures in a row count n attempts; a new job then waits 1, 2, 4, 8, 16, 32 minutes and later an hour, within a tenth, or what the notifier asked for |
| Delivery.SortByCreation | internal/incidents/engine.go:603-614 | the same jobs, in creation order |
| Delivery.Worker.DueNotifications | internal/incidents/engine.go:603-614 | exactly the unsent, not permanently failed jobs whose time has come, once each, in creation order |
| Delivery.Worker.DispatchOne | internal/incidents/worker.go:195-236 | a delivered job gets its receipt, a failed one its error, permanence and next attempt; a job without incident fails for good; on a failed save the job is as before |
| Delivery.Worker.Dispatch | internal/incidents/worker.go:194-237 | due jobs are sent once each in creation order up to the first whose outcome cannot be saved; every handled job was saved and comes no later than those left; it succeeds exactly when every save does, and then no job is due; at most one sent job lacks its receipt |
| Delivery.HandledKeepsExact | internal/incidents/worker.go:194-237 | recording outcomes leaves the jobs exactly the wanted ones |
| Delivery.Worker.Tick | internal/incidents/worker.go:185-192 | in any state: the timers due fire, then the jobs due are sent; it stops before anything is sent exactly when a timer fired and that could not be saved, and then the last snapshot stays; otherwise everything is saved, if anything changed |
| Delivery.Worker.Visit | internal/incidents/worker.go:108-127 | the log is read from the cursors, or from the start exactly when something already read has changed |
| Delivery.Worker.Reconcile | internal/incidents/worker.go:98-183 | a pass applies exactly the supported records it read, in time order, as a run or a rebuild; with timely records it reaches the state of the specification, and its outcome and last snapshot are determined by which saves fail: nothing new if the evidence could not be saved, the applied evidence if the timers could not, else everything; a pass that stops early sends nothing; a completed one leaves no job due |
| Reconciling.Judge | internal/incidents/worker.go:137-157 | each record becomes one observation with the eligibility and source reference of the specification |
| Eligibility.JudgedExactly | internal/incidents/worker.go:137-148 | a record is eligible exactly if it is not imported, and the log was seen before or it is newer than the worker's start, and in a rebuild it is newer than the last checkpoint where the log changed, or past the old cursor elsewhere |
| Eligibility.OutageNotifiesIffNews | internal/incidents/worker.go:137-148 | the outage that a record starts notifies exactly if the record is such news |
| Eligibility.PassNotifiesForNews | internal/incidents/worker.go:137-169 | applying or rebuilding, in any reachable state: an incident comes to notify, and a job is created, only for an incident that notified before or for news of an outage of that interface |
| Eligibility.ImportsAreSilent | internal/incidents/worker.go:140-140 | imported history makes no incident notify and creates no job |
| Eligibility.RereadingIsSilent | internal/incidents/worker.go:141-148 | a rebuild from records below the old cursors, and no newer than the last checkpoint where the log changed, makes nothing notify that did not before |
| Eligibility.RebuiltNotifies | internal/incidents/engine.go:222-233 | after a rebuild an incident notifies exactly if its replay or its old self does, and so does the tracker busy with it |
| Readings.ReadingExact | internal/incidents/worker.go:98-157 | the observations of a pass are those of exactly the records that are evidence, read from the cursors, or from the start in a rebuild, each with its position and judged by what was known before the pass |
| Readings.SourceRefExact | internal/incidents/worker.go:149-152 | a source reference names one position of one partition |
| Readings.AppliedInOrder | internal/incidents/worker.go:128-136 | records are applied in the order of their times, of one time by partition, of one partition as written |
| Reconciling.OrderingSorts | internal/incidents/worker.go:105-136 | the records applied are exactly the supported ones read, strictly ordered by time, partition and offset |
| Reconciling.PassIsMonotone | internal/incidents/worker.go:128-136 | in whatever order the records were written, a pass applies timely ones as a monotone run |
| Reconciling.RebuildIsNarrower | internal/incidents/worker.go:137-148 | a rebuild judges no record more eligible than the pass that first read it, whether or not that pass was bootstrapped |
| Reconciling.HistoryNarrows | internal/incidents/worker.go:137-148 | so for the records of any number of passes, each judged by its own pass |
| Reconciling.RebuildPassAgrees | internal/incidents/worker.go:105-169 | whatever passes and ticks read the log in its order, a rebuild pass over the whole log followed by a tick gives the very state that the tick alone gives |
| Reconciling.UpdatedKeepsInv | internal/incidents/worker.go:158-169 | a pass keeps the invariant of the incidents, and without a rebuild that of the jobs |
| AppendReader.FingerprintDetects | internal/storage/append_reader.go:149-172 | fingerprints agree exactly when the first and the last 2048 bytes of the prefix do |
| AppendReader.ShortFingerprintExact | internal/storage/append_reader.go:149-172 | up to 4096 bytes fingerprints agree exactly when the prefixes do |
| AppendReader.LongFingerprintMisses | internal/storage/append_reader.go:149-172 | beyond that, a change strictly between the windows goes unnoticed |
| AppendReader.ReadLines | internal/storage/append_reader.go:107-128 | reads every complete line from the cursor on and nothing of a partial one |
| AppendReader.VisitPartition | internal/storage/append_reader.go:79-134 | reports a change exactly when the prefix is shorter than the cursor or its fingerprint differs; otherwise the records are those of the complete lines |
| AppendReader.VisitResumes | internal/storage/append_reader.go:48-147 | visiting, and then visiting the grown file from the new cursor, is one visit of the grown file |
| AppendReader.ReadsExactlyOnce | internal/storage/append_reader.go:48-147 | for one partition: chained visits of growing content together read what one visit of the final content reads |
| AppendReader.GrowthIsNotChange | internal/storage/append_reader.go:84-102 | growth is never reported as a change, and cursors stay on line boundaries |
| AppendReader.VisitAfter | internal/storage/append_reader.go:48-147 | succeeds exactly when nothing read before has changed and every complete line decodes; a failure names a partition at fault; each cursor moves past its last complete line |
| AppendReader.VisitedExact | internal/storage/append_reader.go:107-128 | on positions: exactly the complete lines from the cursor on are read, each as the record it decodes to, with the offset where it ends |
| AppendReader.UndecodableExact | internal/storage/append_reader.go:107-128 | reading fails exactly if one of these lines does not decode |
| AppendReader.ChangeExact | internal/storage/append_reader.go:84-102 | since the visit that left a cursor, a partition counts as changed exactly if it is shorter than what was read, or differs in the first or last 2048 bytes of it |
| Readings.GatherExact | internal/storage/append_reader.go:48-147 | a visit of the store reads exactly the complete lines of all partitions, from their cursors or their start on |
| Readings.ReadableExact | internal/storage/append_reader.go:48-147 | a visit of the store succeeds exactly if every partition of which something was read is there, with its cursor within it and its fingerprint unchanged, and each complete line from the cursors on decodes |
| AppendReader.TruncationAndDeletionDetected | internal/storage/append_reader.go:84-145 | truncation below a cursor and deletion of a read partition are reported |
| AppendReader.GatherPerFile | internal/storage/append_reader.go:48-147 | a visit's records, seen from one partition, are that partition's |
| VisitChains.ChainReadsExactlyOnce | internal/storage/append_reader.go:48-147 | for the store: whatever partitions appear and grow between visits chained by their cursors, the records delivered of each partition are those of one visit of its final content |
| VisitChains.GrowthNeverFails | internal/storage/append_reader.go:48-147 | append-only growth is never reported as a change: every visit of a growing store succeeds, its cursors on line boundaries, exactly if what is there in the end decodes |
| Lines.ExtendingIsExact | internal/storage/file_store.go:64-78 | scanning only the added part of a file is right exactly when the old part ended at a line boundary |
| PartitionIndex.ScanReadsLines | internal/storage/query_index.go:90-121 | entries tile the content without gap or overlap, and each points at exactly one stored line |
| PartitionIndex.ExtendedIndexIsRescan | internal/storage/query_index.go:63-84 | extending a cached index and sorting again is a full rescan, failures included |
| PartitionIndex.EntriesStayReadable | internal/storage/query_index.go:63-84 | an entry a running query holds keeps reading its own line with its own keys, and stays in the index, whatever is appended and indexed meanwhile |
| PartitionIndex.ExtensionExact | internal/storage/query_index.go:63-84 | whatever the cached entries and however the partition was written since, extending them gives the index of a rescan exactly if the part not scanned again ends at a line boundary and has them as its index |
| PartitionIndex.RewriteThenGrowth | internal/storage/query_index.go:57-84 | after a rewrite in place that outgrew the old size, the extended index is right exactly when the new content has a line boundary there and the old index up to it |
| PartitionIndex.WrongStaysWrong | internal/storage/query_index.go:57-84 | a wrong index stays wrong however the partition grows |
| MessageStore.ScanIndex | internal/storage/query_index.go:90-121 | appends the entries of the scanned lines, or fails on a line that does not decode |
| MessageStore.FileStore.Append | internal/storage/file_store.go:43-79 | appends one whole line to the partition, whatever its indexes; indexes that were right stay right |
| MessageStore.FileStore.MessageFiles | internal/storage/file_store.go:92-109 | all partitions, newest path first: where two listed paths part, the later one has the smaller character or ends |
| MessageStore.StringOrderExact | internal/storage/file_store.go:107-107 | the path order on positions: where two paths part, the smaller character comes first, and a path comes before its extensions |
| MessageStore.FileStore.RefreshOne | internal/storage/query_index.go:39-86 | in any state: the cached index is reused if the file is the same with the same size and time, extended if it is the same and larger, not looked at otherwise; the result is that of a full rescan exactly if what was trusted of the cached one was right; it fails only on a line that does not decode |
| MessageStore.FileStore.QueryIndexes | internal/storage/query_index.go:31-88 | in any state: afterwards each partition has the index of a full rescan exactly if what was trusted of its cached one was right; if a line does not decode, nothing changes |
| QueryHeap.RootFirst | internal/storage/query_index.go:131-137 | no cursor of the heap precedes its root |
| QueryHeap.Heap.Init | internal/storage/query_index.go:168-168 | arranges the cursors as a heap, a permutation of what was there |
| QueryHeap.Heap.Push | internal/storage/query_index.go:139-139 | adds the cursor and keeps the heap |
| QueryHeap.Heap.Pop | internal/storage/query_index.go:140-140 | removes a cursor that no other precedes and keeps the heap |
| MessageQuery.StartCursors | internal/storage/query_index.go:157-167 | binary search starts every partition at its first record not after `until` |
| MessageQuery.Merge | internal/storage/query_index.go:168-225 | the merge with its early exit and its two skip points gives the simple query's records, decoded |
| MessageQuery.RunQuery | internal/storage/query_index.go:142-226 | a query equals sort, filter, drop and take over everything stored, partition by partition: over a rescan where the index was right, over what the index says where a rewrite made it wrong; it fails only on a bad filter or an undecodable line |
| Pages.HandleMessages | internal/api/router.go:294-330 | a page is the window asked for of what such a query matches, and says there is more exactly when a further matching record exists |
| Pages.MatchesExact | internal/storage/query_index.go:142-226 | a query matches exactly the stored records within its times, both included, of its hosts, if it names any, in whose line the text is found |
| Pages.MatchesInOrder | internal/storage/query_index.go:131-137 | matches come newest first, of one instant by partition as listed, of one partition last written first, none twice |
| Pages.WindowExact | internal/storage/query_index.go:151-154 | shown are the matches from the offset on, as many as the limit, 200 without one |
| Pages.QueryIsWindow | internal/storage/query_index.go:142-226 | limit and offset only move a window over the matching records |
| Pages.WalkIsComplete | internal/api/router.go:302-320 | following pages until there are no more yields every record once |
| Pages.PageWalk | internal/api/router.go:302-320 | over an unchanged store, requests at offsets 0, L, 2L, ... concatenate to all matching records |
| Classification.Classify | internal/incidents/engine.go:703-743 | a message is evidence exactly if its host is named, its time set, and its repeater or netifd line says something about the primary, "wwan" or "tethering"; the evidence has the message's time and id, and what the first interface in that order is said to be |
| Classification.RepeaterPrefixExact | internal/incidents/engine.go:745-760 | the accepted prefixes are exactly "(repeater.lua:", digits, ") " |
| Classification.RepeaterStatusExact | internal/incidents/engine.go:728-736 | a repeater line means online or offline exactly when it has the repeater's form with that word |
| Classification.NetifdExact | internal/incidents/engine.go:709-722 | read off the text of a netifd message with a host and a time: offline evidence about an interface exactly for "is now down", or for the primary "has lost the connection"; online evidence exactly for "is now up"; only for the primary, "wwan" and "tethering"; never reachability evidence |
| Classification.RepeaterExact | internal/incidents/engine.go:724-743 | read off the text of a repeater message: "switch to STARLINK" is offline evidence of "wwan" that is only noted; a status line is reachability evidence about the interface it names, with the polarity it names, the primary first; nothing else is evidence |
| Classification.TrimExact | internal/incidents/engine.go:733-736 | trimming a line leaves a word exactly when the line is that word between white space |

## Left out

- HTTP plumbing, authentication, static files, streaming of messages to browsers and the frontend: thin
  handlers without an invariant of their own; of the API only the pagination of messages is modelled.
- The Discord adapter and the wording of notifications: `Notifier.Send` is success, or a failure that may be
  permanent or ask for a delay. Job kinds are an enumeration, so the branch for an unknown kind
  (internal/incidents/worker.go:203-209) does not arise.
- The syslog listener and sender, configuration from the environment and NDJSON import.
- Real file systems, JSON, regular expressions: files are strings with one character per byte. Copying and
  trimming of the host filter and the text of a message that the filter sees are part of the predicate.
- The temporary file and rename of the snapshot, the 4 MiB line limit, contexts, goroutines and locks: each
  locked method is one atomic step, a save replaces the snapshot or fails.
- Migration of snapshots of an older rule version, `ReplaceSnapshot` and the `RuleVersion` field: loaded
  snapshots are those the engine saved.
- `List`, `Get`, `NotificationsFor`, `PendingNotifications`, `SetCursors`, worker health and its log, `Wake`
  and the select loop of `Run`, test notifications, the realtime hub: they would add only easy members.
- Delivery.RetryDelay: computes in exact integers, because rounding of the floating-point product is not the point.
- MessageStore.FileStore.RefreshOne: does not promise the index of a rescan for a partition rewritten in place to more
  than its cached size, because the code extends the old index then (internal/storage/query_index.go:63-67) and keeps
  extending or reusing the result; PartitionIndex.RewriteThenGrowth says exactly when it is right all the same.
- Recovery.OutboxSafety: does not say that only saved jobs are sent, because after a failed save the next tick
  finds nothing changed and dispatch proceeds (internal/incidents/engine.go:397-401, internal/incidents/worker.go:188-191).
- IncidentService.Service.Rebuild: does not say that the jobs are exactly the wanted ones when the log itself
  changed, because jobs of surviving incidents are kept whatever the new log says (internal/incidents/engine.go:234-238).
- Recovery.CrashEquivalence: starts from a saved bootstrapped snapshot, because before it a crash moves the start time
  that decides eligibility, and does not include rebuilds, because a rebuild keeps the notification choices and jobs that
  memory knew (internal/incidents/engine.go:222-238); Reconciling.RebuildsAlike says what a crash cannot change then.
- Durability.WholeLogState: assumes that the log grows at its end and that no tick overtakes a record still unread,
  because evidence that comes late changes outages (LateEvidence.LateEvidenceInverts).
- Runs.RunKeepsInv: assumes a monotone run and a fixed primary interface; LateEvidence.LateEvidenceInverts shows that monotony is needed.
