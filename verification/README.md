# The RemediationJob lifecycle, verified

The watcher turns observed Kubernetes findings into `RemediationJob` objects ("rjobs") and dispatches each as
a batch Job in which an agent investigates. Two kinds of controller act on one shared store:

* the **source-provider controllers** observe objects, let findings stabilise, deduplicate them by
  fingerprint, honour tombstones, the parent hierarchy and the self-remediation limits, and create or cancel
  rjobs;
* the **RemediationJob controller** holds rjobs for a correlation window, asks the correlator which of them
  belong together, suppresses all but the primary of a group, dispatches, copies Job status back, and
  deletes expired rjobs.

This project models both controllers, the correlator with its three rules, the bounded first-seen map, the
circuit breaker, the fingerprint, the owner walk and the Job provider's depth rule, and proves what they
guarantee together over every run.

## How the model is built

* A reconcile is a **plan**: the sequence of API writes it makes, as a function of the store it reads
  (`Controller.Plan`, `Provider.React`). Stopping after any prefix of the plan is what a failed call leaves
  behind in the store; no theorem about runs assumes that reconciles complete unless it says so. A process
  restart, which loses the first-seen maps and the breaker's memory as well, is a step of its own.
* The reconcilers, the cluster, the bounded map and the breaker are classes whose methods work step by step,
  as the program does, with an API that stops answering after an arbitrary number of writes. Each method is
  proved to send exactly the prefix of its plan that could be sent.
* `Runs` is the state machine: clock ticks, reconciles of either kind with a stop point, Job counters changing
  arbitrarily, Jobs being collected, agents recording pull requests, restarts. A report about one of the
  watcher's own Jobs is what the Job provider extracts from it. Every write a reconcile makes is proved
  to be *enabled* when it is made (`Plans`), so what enabled writes keep, every run keeps.
* Lists come in arbitrary order, UIDs and group identifiers are fresh, the hash is an arbitrary function, and
  pod reads, merge checks, injection verdicts and readiness are arbitrary inputs of a step.

| file | contents |
|---|---|
| `Types`, `Seqs`, `Orders`, `Sorting` | entities, filtering and mapping, the strict total orders, canonical sorting |
| `Rules`, `Deadlock`, `Election` | the correlation rules and correlator, freedom from deadlock, independence of list order |
| `Stores`, `Controller` | writes and their effects, the cluster, the RemediationJob controller |
| `BoundedMaps`, `Breakers`, `Provider`, `JobFindings` | the first-seen map, the breaker, the provider controller, depth of self-remediation |
| `Lifecycle`, `Evolution`, `Plans`, `Runs` | enabled writes, what they keep, that plans consist of them, the state machine |
| `Admissions`, `Outcomes`, `Fallbacks` | exactly when rjobs are created and cancelled; what each kind of reconcile leaves; branches never taken |
| `Guarantees`, `Retries`, `Histories`, `Stabilisation`, `Capacity` | dispatch, tombstone, retry, rank, stabilisation, depth, rate and capacity theorems |
| `Stuck`, `Leftovers`, `Cancellations` | which rjobs nothing moves any more; Jobs that outlive their rjob; cancellations that go on after a failure |
| `Conservation`, `Ledger`, `Balances`, `Drain` | the account of every finding over every run, stops included, and that everything drains |
| `Groups`, `Recovery`, `Orphans`, `Stops` | interrupted groups recover, and exactly which reconciles and which stops lose a finding |
| `Staging`, `Scenes` | states reached from an empty cluster in which a promise is broken |
| `Fingerprints`, `OwnerWalk` | canonical deduplication keys and anchors |

## Where the code does not do what is promised

* **Retries.** `README.md:450-451` of the repository shows a Failed rjob being dispatched again while its retry count is below
  the cap. No such step exists: Failed is absorbing in the controller and the provider replaces the object with
  one whose count is zero. `Retries.ExhaustionIsPermanentIff`: an exhausted Job is permanent exactly
  when the effective cap is one; `Guarantees.CapAboveOneNeverReached`, `Admissions.FailedStartsOver`.
* **The cap on concurrent Jobs.** A group's primary dispatches without asking the gate.
  `Capacity.CapKeptUnlessBypassed`: a reconcile keeps the cap exactly when it is not such a dispatch at full capacity;
  `Scenes.CapIsExceeded` reaches two active Jobs under a cap of one; `Capacity.CapPlusBypassing` bounds the excess.
* **Findings suppressed before an interruption.** Members are suppressed before the group is recorded on the
  primary. `Stops.StopKeepsAllIff`: a first attempt, stopped anywhere, keeps every finding waiting, carried or
  collectable if and only if it stops before suppressing anybody, or after the group is recorded and without
  reaching an injection verdict on the primary. `Stops.EarlyStopOrphans` and `Stops.DrainWithoutOrphans` say
  exactly what is lost, and that it is lost for good.
* **A second attempt that leads again** carries the whole group exactly when nobody had been suppressed under it
  before (`Orphans.LeadCarriesGroupIff`); whoever was is never collected (`Orphans.LeadAgainDrops`).
  `Scenes.SecondLeadDropsMember` reaches such a state from an empty cluster.
* **A primary suppressed as an injection** takes the group it has just suppressed with it
  (`Orphans.InjectionLosesGroup`).
* **Stuck fingerprints.** Only an rjob that can still end or be removed lets its fingerprint be investigated
  again. `Stuck.MovableIffNotStuck`: of the rjobs past Pending, some run that keeps the source moves or removes
  exactly those that are none of permanently failed, Cancelled, suppressed, or dispatched without a Job to read.
  A Cancelled one is left behind exactly by a cancellation stopped between its two writes
  (`Stuck.StoppedCancellationSticksIff`).
* **Leftover Jobs.** A new incarnation that finds the Job of an earlier one under its name takes on that Job's status,
  failure included, and is never dispatched (`Leftovers.LeftoverIsTakenOn`); a reconcile nothing else holds back
  creates a Job if and only if none of its name exists (`Leftovers.DispatchedIffNoneLeft`).
  `Scenes.LeftoverIsReached` reaches such a state.
* **Tombstones without a completion time.** The controllers agree on an unmerged tombstone at every
  instant exactly when its completion time is recorded (`Guarantees.ControllersAgree`); in every reachable
  state it is.
* **Long owner chains.** An object and all its ancestors share an anchor exactly when there are at most ten
  owners (`OwnerWalk.AnchorsAgreeIff`); `OwnerWalk.LongChainSplits` gives a failing chain of every greater length.

## Model

| member | source | states |
|---|---|---|
| `Deadlock.SomeoneProceeds` | internal/controller/remediationjob_controller.go:354-394 | in every non-empty set of Pending rjobs with clean pod reads, whatever order each sees its peers in, some rjob is uncorrelated or the primary of its own group |
| `Deadlock.NoWaitingCycle` | internal/correlator/rules.go:81-398 | a chain of waits for primaries, of any length, never returns to its start |
| `Deadlock.WaitingDescends` | internal/correlator/rules.go:81-398 | the rjob waited for lies strictly below the waiting one in a well-founded order of rule, rank and age |
| `Deadlock.NodeRuleUniform` | internal/correlator/rules.go:321-398 | the same-node rule matches for all candidates or none, and names the same primary to each, also to those outside the node |
| `Deadlock.EvaluateDecides` | cmd/watcher/main.go:308-314 | under the shipped rule order the verdict is that of the first rule that does not pass |
| `Deadlock.VerdictGroups` | internal/correlator/correlator.go:36-84 | the group names that rule's primary and correlates exactly its other members |
| `Election.SelectPrimaryAgrees` | internal/correlator/rules.go:31-53 | any two members of a group elect the same primary, the unique best by rank, age and name, whoever asks and however the others are listed |
| `Election.RuleOrderFree` | internal/correlator/rules.go:157-398 | each rule gives the same primary and the same members for every listing of the same peers |
| `Election.EvaluateOrderFree` | internal/correlator/correlator.go:36-104 | so does the correlator for any rules: same group, same findings as a multiset |
| `Orders.PickIsBest` | internal/correlator/rules.go:31-53 | scanning for a better candidate ends at the unique best element of a strict total order |
| `Orders.PickOrderFree` | internal/correlator/rules.go:358-390 | and the winner depends only on the set scanned |
| `Orders.BestIsElected` | internal/correlator/rules.go:31-53 | beating everyone pairwise is having the highest rank, the earliest creation among those, and the lexicographically first name among those created then |
| `Orders.StrLessIsLexicographic` | internal/correlator/rules.go:31-53 | names compare by their first difference, a proper prefix first |
| `Orders.RanksDescend` | internal/domain/provider.go:65-79 | Deployment, StatefulSet, DaemonSet, Job, ReplicaSet, Pod descend in rank, a claim ranks with a Pod, any other kind below |
| `Sorting.OldestIsHead` | internal/correlator/rules.go:202-215 | sorting claims by age and name and taking the head is electing the oldest |
| `Rules.SelectPrimary` | internal/correlator/rules.go:31-53 | the loop returns one of highest kind rank, created first among those, and first by name among those created then |
| `Rules.EvaluateSameNamespaceParent` | internal/correlator/rules.go:81-122 | the loop matches exactly when some peer of another UID is in the namespace, has a parent as the candidate has, and the two parents are equal or one is the other followed by a dash and more; the members are the candidate and those peers |
| `Rules.ParentRuleMatches` | internal/correlator/rules.go:65-122 | the same of the rule itself, peer by peer where UIDs identify, and that the member elected leads |
| `Rules.EvaluatePodCandidate` | internal/correlator/rules.go:157-232 | a pod matches the claims it mounts, led by the oldest; a missing pod matches nothing, another read error is an error |
| `Rules.EvaluatePVCCandidate` | internal/correlator/rules.go:234-283 | a claim leads the pods that mount it; missing pods are skipped, another read error is an error |
| `Rules.PodRuleMatches` | internal/correlator/rules.go:157-232 | from the pods as they read: an error if and only if the candidate's pod fails to read while a claim is in the namespace, a match if and only if it mounts one, its members, and the eldest mounted claim leading |
| `Rules.ClaimRuleMatches` | internal/correlator/rules.go:234-283 | an error if and only if a pod finding of the namespace fails to read, otherwise a match if and only if some pod mounts the claim, which leads exactly those |
| `Rules.EvaluateMultiPodSameNode` | internal/correlator/rules.go:321-398 | the least node name reaching the threshold decides; its oldest pod leads; a threshold of zero or less is an error |
| `Rules.NodeListed` | internal/correlator/rules.go:339-357 | a node is a candidate exactly when it is non-empty and at least the threshold of pod findings lie on it |
| `Rules.NodeRuleMatches` | internal/correlator/rules.go:321-398 | a match if and only if some named node has at least the threshold of pod findings, counted one by one; members and eldest leader are those of the first such node by name |
| `Rules.Correlate` | internal/correlator/correlator.go:36-104 | rules are tried in order up to the first match or error |
| `Rules.BuildGroup` | internal/correlator/correlator.go:51-100 | the group's findings and members, the primary left out, with the fall-back when a rule names no members |
| `Stores.Cluster.Send` | internal/controller/remediationjob_controller.go:657-693 | a write takes effect exactly when the API still answers |
| `Controller.RemediationJobReconciler.Reconcile` | internal/controller/remediationjob_controller.go:54-485 | a reconcile sends exactly the prefix of its plan that the API accepts, for every phase and every stop point |
| `Controller.RemediationJobReconciler.ReconcilePending` | internal/controller/remediationjob_controller.go:341-484 | a Pending rjob is held, leads its group, resumes an interrupted one, or is dispatched alone |
| `Controller.RemediationJobReconciler.ChooseRoute` | internal/controller/remediationjob_controller.go:346-431 | which of these, by window, verdict, and whether the primary is gone past the grace period |
| `Controller.RemediationJobReconciler.PendingPeers` | internal/controller/remediationjob_controller.go:574-594 | exactly the other Pending rjobs, in list order |
| `Controller.RemediationJobReconciler.SuppressCorrelatedPeers` | internal/controller/remediationjob_controller.go:600-618 | both patches for each member of the group in turn, stopping at the first failure |
| `Controller.RemediationJobReconciler.TransitionSuppressed` | internal/controller/remediationjob_controller.go:719-757 | status, then labels, and only for a Pending rjob |
| `Controller.RemediationJobReconciler.FormGroup` | internal/controller/remediationjob_controller.go:402-418 | members suppressed first, then the group recorded on the primary: status, then labels |
| `Controller.RemediationJobReconciler.LeadGroup` | internal/controller/remediationjob_controller.go:396-428 | an earlier attempt's identifier is kept; the group is formed, then dispatched with the group's findings |
| `Controller.RemediationJobReconciler.RecoverGroup` | internal/controller/remediationjob_controller.go:431-473 | the missing label is added, the gate is asked, and everyone suppressed under the group is dispatched for |
| `Controller.RemediationJobReconciler.ListSuppressed` | internal/controller/remediationjob_controller.go:439-449 | exactly the other rjobs suppressed under the rjob's group |
| `Controller.RemediationJobReconciler.Dispatch` | internal/controller/remediationjob_controller.go:623-709 | injection suppression, then Job creation and the Dispatched patch, or adoption of an existing Job |
| `Controller.RemediationJobReconciler.ConcurrencyGate` | internal/controller/remediationjob_controller.go:798-838 | limited exactly when the cap is set and at least that many Jobs are active, in the sense of `Capacity.ActiveIsBusy` |
| `Controller.RemediationJobReconciler.ListOwned` | internal/controller/remediationjob_controller.go:190-197 | exactly the Jobs labelled with the rjob's name |
| `Controller.RemediationJobReconciler.IsPrimaryGone` | internal/controller/remediationjob_controller.go:364-380 | gone exactly when no listed rjob has the primary's UID |
| `BoundedMaps.LazyReadRefinesCleanup` | internal/provider/bounded_map.go:104-125 | for every state, key and time a read returns what a lookup after a cleanup at that time would: the stored time unless it is older than the time-to-live and a cleanup is due |
| `BoundedMaps.SizeStaysBounded` | internal/provider/bounded_map.go:62-101 | over every sequence of sets, deletes, clears and cleanups the size stays within the bound |
| `BoundedMaps.EvictsExactlyTheOldest` | internal/provider/bounded_map.go:77-92 | a new key in a full map costs exactly one entry, of minimal timestamp, and leaves the others as they were |
| `BoundedMaps.RoomCostsNothing` | internal/provider/bounded_map.go:62-101 | where there is room, or the key is there, storing costs only the entries a due cleanup removes |
| `BoundedMaps.ReadsAreRecent` | internal/provider/bounded_map.go:104-177 | what a read returns is at most one time-to-live plus one cleanup interval old |
| `BoundedMaps.BoundedMap.SetWithTime` | internal/provider/bounded_map.go:62-101 | cleanup, then overwrite, or eviction of an oldest entry, then insertion |
| `BoundedMaps.BoundedMap.FindOldest` | internal/provider/bounded_map.go:80-90 | an entry of minimal timestamp, in whatever order the map is ranged over |
| `BoundedMaps.BoundedMap.Get` | internal/provider/bounded_map.go:104-125 | equals the plain lookup after cleanup |
| `BoundedMaps.BoundedMap.CleanupIfNeeded` | internal/provider/bounded_map.go:153-177 | when due, exactly the entries older than the time-to-live go |
| `BoundedMaps.BoundedMap.Delete` | internal/provider/bounded_map.go:128-133 | that key goes, nothing else |
| `BoundedMaps.BoundedMap.Clear` | internal/provider/bounded_map.go:144-150 | everything goes and the cleanup clock restarts |
| `Breakers.CircuitBreaker.ShouldAllow` | internal/circuitbreaker/circuitbreaker.go:24-37 | allowed exactly after the cooldown; otherwise the remaining time is the earliest at which it would be |
| `Breakers.SpacedRate` | internal/circuitbreaker/circuitbreaker.go:14-37 | times a cooldown apart between resets: at most one, plus one per reset within the span, plus span over cooldown of them in any span |
| `Provider.SourceProviderReconciler.Reconcile` | internal/provider/provider.go:74-729 | a provider reconcile sends exactly the accepted prefix of its writes and updates the first-seen map and the breaker accordingly |
| `Provider.SourceProviderReconciler.CancelAll` | internal/provider/provider.go:88-153 | each live rjob of the deleted source is marked cancelled, then deleted |
| `Provider.SourceProviderReconciler.PassStabilisation` | internal/provider/provider.go:373-406 | a finding passes only once its recorded first sight is a window old; an unseen one is recorded, so that `Stabilisation.StableFindingIsCreated` holds |
| `Provider.SourceProviderReconciler.CheckDuplicates` | internal/provider/provider.go:415-577 | Failed rjobs are deleted, and the first other rjob of the fingerprint suppresses the finding |
| `Provider.SourceProviderReconciler.HandleTombstone` | internal/provider/provider.go:440-559 | a merged tombstone suppresses, a newly merged one is recorded, an unmerged one suppresses until its short time-to-live and is then deleted |
| `Provider.SourceProviderReconciler.IsCovered` | internal/provider/provider.go:588-624 | covered exactly when an rjob of the same namespace and parent has a higher kind rank |
| `Provider.SourceProviderReconciler.CreateUnlessCovered` | internal/provider/provider.go:588-709 | an rjob is created when not covered and the dependencies are ready |
| `JobFindings.GetChainDepthFromOwner` | internal/provider/native/job.go:137-155 | one more than the first RemediationJob owner still there, else one; a read error is an error |
| `JobFindings.FirstOwnerDecides` | internal/provider/native/job.go:137-155 | by the first reference of kind RemediationJob, at whatever position |
| `JobFindings.ExtractFinding` | internal/provider/native/job.go:44-115 | no finding exactly when the Job is annotated to be skipped, suspended, completed, owned by a CronJob, without a failed pod or with an active one; positive depth only for the watcher's own Jobs |
| `Lifecycle.OwnedIsJob` | internal/jobbuilder/job.go:132-132 | however Jobs are listed, an rjob owns at most one, the one named after its fingerprint |
| `Evolution.WriteEvolves` | internal/controller/remediationjob_controller.go:111-339 | each write moves an rjob only along the phase order, keeps its identity, completion and merge times, and removes it only when cancelled, failed or expired |
| `Evolution.WriteDispatchesOnce` | internal/controller/remediationjob_controller.go:652-693 | each write keeps that no incarnation has two Jobs |
| `Evolution.WriteRespectsCap` | internal/controller/remediationjob_controller.go:197-246 | from any retry count, each write keeps that a count at the cap means permanent failure |
| `Plans.PlanEnabled` | internal/controller/remediationjob_controller.go:54-485 | every write of every controller reconcile is enabled when issued; in particular an existing Job is never adopted |
| `Plans.ReactEnabled` | internal/provider/provider.go:74-729 | every write of every provider reconcile is enabled when issued |
| `Runs.RunKeepsInv` | internal/controller/remediationjob_controller.go:54-485 | the invariant holds in every run, with stops anywhere |
| `Guarantees.RunFate` | internal/controller/remediationjob_controller.go:111-339 | over every run each incarnation has evolved along the phase order or was removed when it might be |
| `Guarantees.PhaseNeverReturns` | internal/controller/remediationjob_controller.go:96-103 | what has left Pending never returns to it |
| `Guarantees.NoJobAfterPending` | internal/controller/remediationjob_controller.go:334-339 | once an incarnation has left Pending no run creates a Job for it, whatever is collected |
| `Guarantees.NoDoubleDispatch` | internal/controller/remediationjob_controller.go:652-693 | no incarnation ever has two Jobs, stops between creation and patch included, if such a Job survives to the next reconcile |
| `Guarantees.OnePerFingerprint` | internal/provider/provider.go:408-417 | at most one rjob per fingerprint in every reachable state |
| `Guarantees.PermanentTombstone` | internal/provider/provider.go:421-435 | a permanently failed rjob stays for ever, unchanged in phase, alone with its fingerprint, without a further Job |
| `Stuck.StuckForGood` | internal/provider/provider.go:560-575 | so does a Cancelled rjob, and until its source is deleted a suppressed one and a Dispatched or Running one whose Job was collected |
| `Stuck.MovableIffNotStuck` | internal/controller/remediationjob_controller.go:111-184 | of the rjobs past Pending, some run that keeps the source moves or removes exactly those that are none of permanently failed, Cancelled, suppressed, or dispatched without a Job |
| `Stuck.StoppedCancellationSticksIff` | internal/provider/provider.go:129-137 | after the deletion of a source stopped anywhere, an rjob not Cancelled before is left Cancelled if and only if the stop fell between its two writes |
| `Cancellations.AnyOutcomeIsReached` | internal/provider/provider.go:129-155 | whichever rjobs of a deleted source fail to be cancelled or to be deleted while the loop goes on, the store that results is reached by reconciles that stop at their first failure |
| `Leftovers.LeftoverIsTakenOn` | internal/controller/remediationjob_controller.go:190-246 | an incarnation that finds a Job of another one under its name takes on that Job's status and is never dispatched in any run |
| `Leftovers.DispatchedIffNoneLeft` | internal/controller/remediationjob_controller.go:190-197 | a reconcile that nothing else holds back creates a Job if and only if none of its name exists |
| `Scenes.LeftoverIsReached` | internal/provider/provider.go:436-439 | a reachable state with an incarnation about to take on the failure of the one before it |
| `Guarantees.TombstoneHolds` | internal/provider/provider.go:440-559 | in every run the tombstone is there and alone with its fingerprint: merged, until TTL after the recorded merge, or after completion if the merge has no time; unmerged, until the short TTL, a day if that is zero, after completion; given short TTL at most TTL |
| `Guarantees.TombstoneEnds` | internal/controller/remediationjob_controller.go:111-145 | a reconcile of a Succeeded rjob deletes it if and only if that time has come, notes the completion time if there is none, and changes nothing else |
| `Guarantees.ControllersAgree` | internal/controller/remediationjob_controller.go:105-145 | controller and provider agree on an unmerged tombstone at every instant if and only if its completion time is recorded |
| `Guarantees.RetryAccounting` | internal/controller/remediationjob_controller.go:203-246 | in every reachable state the count is at most one, one means failure, and reaching the cap means permanent failure |
| `Guarantees.RetriesMoveOnce` | internal/controller/remediationjob_controller.go:204-211 | over every run the count of an incarnation moves at most once, and only into failure |
| `Guarantees.CapAboveOneNeverReached` | internal/controller/remediationjob_controller.go:212-233 | with any cap but one, and no injection suppression, nothing is ever permanently failed |
| `Guarantees.LowerRankCameFirst` | internal/provider/provider.go:588-624 | of two coexisting rjobs for one parent the one of lower rank was created first |
| `Retries.RetriesCountExhaustedJobs` | internal/controller/remediationjob_controller.go:197-218 | in every step the count moves by one exactly when the step finds the rjob's Job exhausted, and otherwise stays |
| `Retries.ExhaustionIsPermanentIff` | internal/controller/remediationjob_controller.go:212-233 | an exhausted Job makes its rjob permanently failed if and only if the effective cap is one, otherwise Failed |
| `Admissions.CreatedExactlyWhen` | internal/provider/provider.go:296-709 | a report leads to a new rjob if and only if filters, depth, breaker and window let it through, the dependencies are ready, the name is free or held by a Failed rjob of the fingerprint, and no other rjob of its namespace has its parent and a higher kind rank; every field of the new rjob; nothing under another name changes |
| `Admissions.FailedStartsOver` | internal/provider/provider.go:436-439 | the next admitted report replaces a Failed rjob, whatever its count, by a new incarnation with count zero |
| `Admissions.FailedIsRemoved` | internal/provider/provider.go:436-439 | and removes it even where no new one may be created |
| `Admissions.KnownFingerprint` | internal/provider/provider.go:440-575 | an admitted report about a fingerprint held by an rjob that is not Failed creates nothing; it records a merge found now, or deletes an unmerged tombstone whose time is over, and leaves everything else |
| `Admissions.SourceDeletionCancels` | internal/provider/provider.go:84-163 | deleting a source removes exactly its rjobs that have not ended and leaves every other rjob as it was |
| `Fallbacks.PrimaryAmong` | internal/correlator/rules.go:31-398 | the primary a verdict names is the candidate or one of its peers |
| `Fallbacks.PrimaryNeverGone` | internal/controller/remediationjob_controller.go:363-394 | so a primary is never gone, and a non-primary is held however long it waited |
| `Fallbacks.NeverAdopts` | internal/controller/remediationjob_controller.go:657-676 | no reconcile reaches the branch that adopts an existing Job |
| `Retries.PlanSyncs` | internal/controller/remediationjob_controller.go:190-331 | a reconcile with a Job to read does nothing but copy that Job's status onto its own rjob |
| `Outcomes.SyncOutcome` | internal/controller/remediationjob_controller.go:190-331 | and what that leaves, by the Job's counters: phase, retry count, completion time and Job reference; every other object stays |
| `Outcomes.LeadOutcome` | internal/controller/remediationjob_controller.go:396-428 | a leading reconcile suppresses exactly the Pending rjobs its group correlates, with status and labels, marks and dispatches the primary, and makes one Job: its name, owner, counters, back-off limit and findings |
| `Outcomes.SoloOutcome` | internal/controller/remediationjob_controller.go:476-484 | an uncorrelated one makes such a Job for its own finding alone |
| `Outcomes.RecoverOutcome` | internal/controller/remediationjob_controller.go:431-473 | a resumed one is labelled, and past the gate makes such a Job with the findings suppressed under its group |
| `Outcomes.QuashOutcome` | internal/controller/remediationjob_controller.go:628-649 | an injection fails for good without a Job |
| `Outcomes.RestOutcome` | internal/controller/remediationjob_controller.go:96-184 | an untouched rjob becomes Pending; one that failed, was cancelled, suppressed, or dispatched and lost its Job is left as it is |
| `Outcomes.ReadErrorHolds` | internal/controller/remediationjob_controller.go:354-361 | while a pod the correlator needs cannot be read, a Pending rjob is held and nothing is written |
| `Histories.CreationsAreStable` | internal/provider/provider.go:359-406 | every non-critical creation follows a recording by the same provider one to three windows earlier, with no wipe and no restart between |
| `Stabilisation.FirstSightIsRecorded` | internal/provider/provider.go:373-383 | an admitted report of a fingerprint not remembered writes nothing, is recorded at that instant, and reads back so for two windows |
| `Stabilisation.FirstSightIsRemembered` | internal/provider/provider.go:359-383 | and over every run of that length that does not restart, clear this provider's memory or evict it |
| `Stabilisation.StableFindingIsCreated` | internal/provider/provider.go:359-709 | an admitted, ready and unopposed report one to two windows after such a first sight creates the rjob |
| `Stabilisation.BreakerAfterReport` | internal/provider/provider.go:296-336 | a report moves the breaker if and only if it is about self-remediation within the depth limit and the breaker is set and open |
| `Stabilisation.MemoryStaysBounded` | internal/provider/provider.go:60-72 | over every run each provider remembers at most a thousand fingerprints |
| `Histories.DepthIsLimited` | internal/provider/provider.go:296-315 | every self-remediation creation is within the depth limit and, as the Job provider computes it, one deeper than its live owner |
| `Histories.RateIsLimited` | internal/provider/provider.go:317-336 | across all providers any interval of length L has at most 1 + L / cooldown self-remediation creations, and one more for each restart within it |
| `Capacity.GateCounts` | internal/controller/remediationjob_controller.go:798-838 | the gate counts the set of active Jobs, however they are listed |
| `Capacity.ActiveIsBusy` | internal/controller/remediationjob_controller.go:776-792 | a Job counts if and only if no pod succeeded, no more than the back-off limit failed, six when unset, and a pod is active or failed or the Job is at most half an hour old |
| `Capacity.HeldAtCapacityIff` | internal/controller/remediationjob_controller.go:476-484 | with correlation off a Pending rjob without a Job is held if and only if the cap is set and that many Jobs count |
| `Capacity.RunningJobsFill` | internal/controller/remediationjob_controller.go:798-838 | in particular when as many Jobs as the cap have a running pod |
| `Capacity.ControlJobs` | internal/controller/remediationjob_controller.go:652-693 | exactly which Job, if any, a reconcile stopped anywhere has created |
| `Capacity.HeldWithinWindow` | internal/controller/remediationjob_controller.go:346-353 | with correlation on, a Pending rjob without a Job is neither dispatched nor leads a group before its window has passed |
| `Capacity.CapKeptUnlessBypassed` | internal/controller/remediationjob_controller.go:396-428 | a reconcile keeps the cap if and only if it is not the dispatch of a group's primary at full capacity |
| `Capacity.ConcurrencyCap` | internal/controller/remediationjob_controller.go:476-484 | with correlation off no run has more Jobs that take up capacity, by their own counters, than the cap, if inactive Jobs stay inactive |
| `Capacity.CapPlusBypassing` | internal/controller/remediationjob_controller.go:396-428 | with correlation on or off, no run has more active Jobs than the cap plus the active ones created for the primary of a group |
| `Scenes.CapIsExceeded` | internal/controller/remediationjob_controller.go:396-428 | a state reached from an empty cluster with two active Jobs under a cap of one |
| `Capacity.TerminalJobsDoNotCount` | internal/controller/remediationjob_controller.go:776-792 | a Job that syncs to Succeeded or Failed is never counted active |
| `Conservation.LeaderFindings` | internal/correlator/correlator.go:64-84 | the findings a primary dispatches with are those of the peers its group suppresses |
| `Conservation.SuppressTakes` | internal/controller/remediationjob_controller.go:600-618 | suppressing a group takes exactly its members' findings out of those waiting |
| `Ledger.FindingsConserved` | internal/controller/remediationjob_controller.go:54-485 | every complete reconcile, in any state and on any route, leaves waiting plus carried findings unchanged, each with its multiplicity, but for those of an rjob that takes on an existing Job, an injection with the group it leads, and an interrupted group recovered |
| `Ledger.ProviderAccounts` | internal/provider/provider.go:74-729 | every complete provider reconcile adds the finding of the rjob it creates and takes off those of the waiting rjobs whose source is gone |
| `Balances.ReconcileBalances` | internal/controller/remediationjob_controller.go:54-485 | the same for a reconcile stopped after any of its writes: off go the members suppressed before their Job exists, on comes an rjob whose Job exists before it knows |
| `Balances.ProviderBalances` | internal/provider/provider.go:74-729 | and for a provider reconcile stopped anywhere: off go the waiting rjobs whose cancellation began |
| `Balances.RunBalances` | internal/controller/remediationjob_controller.go:54-485 | over every run, each reconcile of either kind stopped anywhere, waiting plus carried at the end is that at the start plus creations and recoveries minus cancellations and losses |
| `Drain.StepKeepsReady` | internal/controller/remediationjob_controller.go:341-484 | completed reconciles leave no half-formed group and no Job for a waiting rjob |
| `Drain.StepConserves` | internal/controller/remediationjob_controller.go:341-484 | conservation for every step of such a run, whatever the Jobs do |
| `Drain.Progress` | internal/controller/remediationjob_controller.go:354-394 | a run that reconciles a free rjob with the gate open shrinks the backlog, at that point or before |
| `Drain.Drains` | internal/controller/remediationjob_controller.go:341-484 | after as many full rounds as the backlog is large, each reconciling every waiting rjob at least once with the gate open, nothing waits and each finding that waited rides in exactly one Job |
| `Groups.GroupsStayDisjoint` | internal/controller/remediationjob_controller.go:396-418 | in every reachable state no two waiting rjobs share a group identifier and all in use were given out |
| `Groups.RunSteady` | internal/controller/remediationjob_controller.go:396-473 | no run disturbs an interrupted group, short of cancelling a member or reconciling its primary |
| `Recovery.RecoveredIsUnder` | internal/controller/remediationjob_controller.go:439-449 | recovery collects everyone suppressed under the group, each once |
| `Recovery.RecoveryEqualsDispatch` | internal/controller/remediationjob_controller.go:405-473 | after a stop between recording the group and creating the Job, and any run in between, recovery dispatches under the same group exactly the interrupted dispatch's findings, plus those an earlier attempt had suppressed |
| `Recovery.FirstAttemptIsFresh` | internal/controller/remediationjob_controller.go:397-401 | on a first attempt there are none of the latter |
| `Orphans.LeadCarriesGroupIff` | internal/controller/remediationjob_controller.go:396-428 | a leading rjob's Job carries its whole group if and only if nobody was suppressed under it before |
| `Orphans.LeadAgainDrops` | internal/controller/remediationjob_controller.go:397-427 | a primary that leads again dispatches only for those it suppresses now; whoever was suppressed before stays so, under a group nobody that may still dispatch holds in any later state |
| `Scenes.SecondLeadDropsMember` | internal/controller/remediationjob_controller.go:397-427 | a state reached from an empty cluster with such a member: suppressed, carried by no Job, never to be collected |
| `Orphans.InjectionLosesGroup` | internal/controller/remediationjob_controller.go:628-649 | a primary suppressed as an injection loses its own finding and exactly those of the members it has just suppressed, for good |
| `Stops.EarlyStopOrphans` | internal/controller/remediationjob_controller.go:402-409 | stopping before the group is recorded takes exactly the findings suppressed by then out of those waiting or carried, and their group has no holder in any later state |
| `Stops.DrainWithoutOrphans` | internal/controller/remediationjob_controller.go:402-409 | however the rest drains, Jobs then carry what waited before less those findings |
| `Stops.StopKeepsAllIff` | internal/controller/remediationjob_controller.go:396-428 | which stops of a first attempt lose a finding, as an if-and-only-if on the stop point and the injection verdict |
| `Stops.RecordedGroupIsHeld` | internal/controller/remediationjob_controller.go:405-409 | stopping from then on leaves it held by its primary |
| `Fingerprints.QuoteRoundTrip` | internal/domain/provider.go:57-61 | a quoted JSON string reads back under the escapes of section 7 of RFC 8259, whatever follows it |
| `Fingerprints.PayloadIsCanonical` | internal/domain/provider.go:42-61 | two payloads are equal if and only if namespace, kind, parent and the multiset of error texts are |
| `Fingerprints.SortCanonical` | internal/domain/provider.go:38-42 | sorted text lists are equal if and only if the texts are equal as multisets |
| `Fingerprints.FindingFingerprint` | internal/domain/provider.go:28-63 | the hash of the payload with all the texts in canonical order; nothing if and only if there is a malformed error list; see `Fingerprints.FingerprintsAgreeIff` |
| `Fingerprints.FingerprintsAgreeIff` | internal/domain/provider.go:28-63 | under a hash without collisions two findings have one fingerprint if and only if namespace, kind and parent agree and every text occurs equally often among all their failures |
| `OwnerWalk.GetParent` | internal/provider/native/parent.go:34-98 | at most ten lookups, ending where the bounded, cycle-guarded walk ends |
| `OwnerWalk.WalkStaysOnChain` | internal/provider/native/parent.go:51-97 | on any owner store, cycles included, the walk follows first owners, meets no UID twice, and ends at the hop limit, where there is no owner to climb to, or where the owner was met before |
| `OwnerWalk.ParentInLineage` | internal/provider/native/parent.go:51-97 | on an acyclic, resolvable chain of known kinds it is the root, or the tenth owner if that comes first |
| `OwnerWalk.ResolvesToRoot` | internal/provider/native/parent.go:18-28 | through at most ten owners, each a Pod, ReplicaSet, Deployment, StatefulSet, DaemonSet, Job, CronJob, ConfigMap or Node, an object resolves to the root: Pod, ReplicaSet, Deployment to the Deployment |
| `OwnerWalk.StopsBelowOthers` | internal/provider/native/parent.go:51-97 | an owner of any other kind, or one that cannot be fetched, is not climbed to |
| `OwnerWalk.AnchorsAgreeIff` | internal/provider/native/parent.go:15-15 | an object and all its ancestors share one anchor, the root, if and only if there are at most ten owners |
| `OwnerWalk.LongChainSplits` | internal/provider/native/parent.go:51-97 | for every greater length a chain on which an object's anchor is not its owner's |

## Left out

- Requeue delays and returned errors: a reconcile is its writes; when it is called again is left to the run.
- Integer widths: Job counters and durations are unbounded; only adding one to a back-off limit of 2147483647 would differ.
- Conditions, events, metrics, log lines, message texts and the dry-run report.
- Automatic closing of pull requests, which writes nothing to the modelled store.
- Namespace, severity and injection filters of the provider, collapsed into one input that drops the finding.
- Injection detection, redaction and pull-request merge checks: arbitrary verdicts given to each step.
- Pod and container assembly of the Job beyond name, label, owner, back-off limit and findings.
- Informer staleness, patch conflicts and overlapping reconciles: each reconcile reads the current store.
- List selectors by namespace and managed-by label: all modelled rjobs and Jobs carry them.
- Provider.SourceProviderReconciler.CancelAll: stops at the first failed write, where the program goes on with the next rjob and reports all errors at the end; by `Cancellations.AnyOutcomeIsReached` the theorems about runs cover what it then leaves.
- Controller.RemediationJobReconciler.Reconcile: its writes do not include the patch of the PRRecorded condition, which no decision reads but the one that makes it, nor the patch that follows a deletion by TTL and fails on the deleted object.
- Creation of the first-seen map on first use: it is created with the reconciler, or at the first reconcile of a run.
- Evolution.WriteRespectsCap: states that a count at the cap means permanent failure, not the converse, which injection suppression breaks.
- Fingerprints.FindingFingerprint: reading the serialised error list is a parameter, and strings are sequences of code points, so invalid UTF-8, which the encoder would replace, does not arise.
- Guarantees.TombstoneHolds: needs the short TTL not to exceed the long one, which the configuration documents and does not enforce.
- Drain.Drains: with no new findings arriving, no half-formed group and no leftover Job at the start, and every window elapsed.
- Other native providers, the GitHub clients, configuration parsing and readiness probes.
