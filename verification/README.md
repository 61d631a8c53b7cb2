# A verified model of the Antrea operator

The Antrea operator installs Antrea on OpenShift and Kubernetes: it fills and validates the
configuration a user asks for, applies the rendered manifest, watches the rollout, and reports
its state in the conditions of a ClusterOperator and an AntreaInstall.  This project models
that logic in Dafny and proves what it promises over whole runs, with the API server, the
clock and the other resources answering in any way they like.

`dafny verify dfyconfig.toml` checks everything.

## How it is laid out

| file | what it holds |
|---|---|
| `Basics.dfy` | names, platforms, message lines, degraded levels |
| `Conditions.dfy` | condition lists, the merge that publishes them, the merge as a map override |
| `Rollout.dfy` | one pass over the tracked workloads, the memory kept between passes, its meaning |
| `StatusModel.dfy` | the status manager as a function of its state and of what it is answered |
| `StatusManager.dfy` | the status manager as an object, each method proved to do what the function says |
| `TransitionTimes.dfy` | transition times against the record of ClusterOperator writes |
| `StatusRuns.dfy` | the related-objects ledger, rendered objects, Available, over any run |
| `StatusVerdicts.dfy` | Degraded as a function of the history, availability, quiescence |
| `StatusPublished.dfy` | what each operation publishes, spelled out; retries; the copy in the AntreaInstall |
| `StatusHistory.dfy` | hung rollouts as a function of the history |
| `StatusJustification.dfy` | hung reports against all that was really seen, whatever snapshots were lost |
| `Config.dfy` | fill, validate, change detection, as functions and in place |
| `Reconcile.dfy` | both install reconcilers, as functions and as an object |
| `ReconcileRuns.dfy` | what holds over any sequence of rounds and restarts |
| `ReconcileFaults.dfy` | what a round that fails half way leaves behind, and exactly when the next one repairs it |
| `ReconcileReports.dfy` | how a round ends: the level and reason it raises, and when it clears them |
| `OperatorRuns.dfy` | what the reconciler hands over against what the status manager is told |
| `LockProtocol.dfy` | the two controllers as threads over SharedInfo and the StatusManager |
| `Roles.dfy` | the merge of ClusterRole rules |

An operation that changes state appears twice: as a function from the old state and the
answers to the new state, and as a method that updates fields in loops and with early exits,
whose `ensures` equates the two.  The properties are proved about the functions, so they hold
of the methods.  What the environment does is an argument: a `Script` holds the answers to the
attempts of one retried call, `Pods` those of one `SetFromPods`, `Faults` those of one
reconcile round, and a `Move` of the lock protocol one scheduled step.

## What is assumed

- library-go's `FindStatusCondition` and `SetStatusCondition` are `Find` and `SetCondition`:
  conditions are kept by type, an absent type is appended, the transition time moves only when
  the status does, and reason and message are always overwritten.
- Printing a configuration as YAML and parsing it back gives the same configuration
  (`Configuration.RoundTrips`); the JSON of the last-seen annotation likewise.  Whether a CIDR
  is IPv4 is an arbitrary predicate.
- Rendering stores the filled strings and the image in the objects meant for them.
- Only the operator writes the ClusterOperator, its annotation and the AntreaInstall status.
  Creating a ClusterOperator may keep its status or drop it.
- One status write reads the clock once; one iteration over a workload reads it twice.  Message
  text is a list of lines, each a function of what it mentions.
- On OpenShift the cluster Network has a service network, and a configured default MTU is an
  integer (`Reconcilers.Sane`): with an empty service network or another type the source panics.

## Findings

- A list of related objects that is empty but not nil never compares equal to the nil list read
  back, so a repeated `SetFromPods` is quiet exactly when the list is not of that kind
  (`StatusVerdicts.SetFromPodsIsQuiescentIff`).  Only a direct caller of the status manager can
  bring this about: the install reconciler never hands over such a list
  (`OperatorRuns.OperatorIsNeverNoisy`).
- A snapshot that could not be stored can make hung detection report too early
  (`StatusHistory.LostWriteReportsTooEarly`).  After any run with any failed reads and writes,
  the next report can come too early exactly when the entry in the annotation misleads: it
  claims a status that was not the last one seen, or an earlier start of it than was seen and
  that is not overdue by itself (`StatusJustification.TooEarlyIff`).  The annotation never claims
  too much exactly when every lost snapshot was a first sighting or a look at the status the
  entry already has (`StatusJustification.HonestOverRunsIff`); such losses, and failed reads,
  only delay a report.
- On Kubernetes each status write starts from no conditions, so after a reporting operation the
  AntreaInstall shows Degraded and Upgradeable alone, neither Progressing nor Available
  (`StatusVerdicts.KubernetesShowsDegradedAlone`).
- Filling an OpenShift configuration again appends the cluster CIDRs again, so the OpenShift
  shortcut agrees with the full path exactly if there are no cluster networks
  (`Configuration.OpenShiftFillIsIdempotentIff`).  The Kubernetes shortcut always agrees.
- Reverting a change whose round failed half way reports success and writes nothing.  The
  configurations and the images of both workloads are those of the applied configuration again
  exactly when no object applied before the failure carried another configuration or image
  (`ReconcileFaults.RevertKeepsSyncIff`, with `RevertLeavesAbandonedConfig` as an instance).
- The round after one whose applies failed reports success in any case.  If the operator has no
  memory, because it was started for the first time or again, it applies nothing exactly when
  the ConfigMap and the controller deployment already read as the new configuration, even if the
  agents, which follow them in the manifest, are missing or run another image
  (`ReconcileFaults.RetryRepairsIff`, `PartialInstallLooksCompleteIff`,
  `RestartedUpgradeKeepsOldAgents`).
- README.md of the operator says that a configuration change restarts the relevant pods.  A
  change first seen by the round that follows an operator restart is applied without deleting
  any pod (`ReconcileFaults.RestartLosesPodDeletion`).
- `stringSliceEqual` tells permutations from other lists, and is symmetric, exactly for first
  lists without duplicates (`Configuration.SliceEqualIsPermutationIff`).

## Model

| member | source | states |
|---|---|---|
| `Conditions.CombineConditions` | controllers/statusmanager/status_manager.go:288-307 | the merged list, and `changed` exactly when the status, reason or message of some type is new or different |
| `Conditions.CombineIsOverride` | controllers/statusmanager/status_manager.go:288-307 | by type, the result is the old map overridden by the new conditions, each keeping its transition time exactly when its status stays; types stay unique |
| `Conditions.PublishFinds` | controllers/statusmanager/status_manager.go:177-202 | Available is set to Startup only if it is absent while progressing, Upgradeable is always set, every other type is as merged |
| `Conditions.PublishIsExact` | controllers/statusmanager/status_manager.go:177-202 | Upgradeable is True, every new condition is there as handed in, an absent Available becomes False for Startup exactly while Progressing is True, everything else stays |
| `Conditions.PublishIsQuiescent` | controllers/statusmanager/status_manager.go:177-202 | publishing what is already published changes nothing, transition times included |
| `Rollout.RolledOutHasNoProgress` | controllers/statusmanager/pod_status.go:82-135 | a workload writes no progress line exactly when enough pods are updated, none is unavailable, some is available and its generation is observed |
| `Rollout.ScanWorkloads` | controllers/statusmanager/pod_status.go:71-154 | the loop over one kind of workload computes the states, lines, hung rollouts and level of the pass |
| `Rollout.ScanReportsUnfinished` | controllers/statusmanager/pod_status.go:65-154 | exactly one line per missing or unfinished workload, in order, and the level survives exactly if there is none |
| `Rollout.ScanTracks` | controllers/statusmanager/pod_status.go:96-113 | with distinct names a workload's entry and verdict depend on its own old entry and its own reply alone |
| `Rollout.MemoryIsTrailingRun` | controllers/statusmanager/pod_status.go:96-113 | the remembered time is when the longest trailing run of unfinished observations with one status began, and nothing is remembered exactly when there is no such run |
| `Rollout.HungExactly` | controllers/statusmanager/pod_status.go:106-109 | the verdict is hung exactly when the workload was already unfinished before and that run began strictly more than ten minutes ago |
| `Rollout.HungExactlyByRun` | controllers/statusmanager/pod_status.go:106-109 | the first condition is implied unless one iteration takes longer than the timeout |
| `Rollout.HungMeansTenMinutes` | controllers/statusmanager/pod_status.go:25-28 | the timeout is strictly more than ten minutes |
| `Rollout.HungIsJustified` | controllers/statusmanager/pod_status.go:173-208 | whatever reads failed, a hung verdict means the real observations show one unfinished status for longer than the timeout |
| `Rollout.SaveStates` | controllers/statusmanager/pod_status.go:217-231 | in whatever order the map is iterated, the list has every entry once, under its own key |
| `Rollout.LoadStates` | controllers/statusmanager/pod_status.go:199-207 | the loop that fills a map from the list, later entries winning |
| `Rollout.LaterEntryWins` | controllers/statusmanager/pod_status.go:199-205 | where a list names a workload twice the later entry is loaded |
| `Rollout.SnapshotRoundTrip` | controllers/statusmanager/pod_status.go:199-231 | loading any saved order gives the same map back, with each entry's name equal to its key |
| `StatusManagers.StatusManager.DeleteRelatedObjectsNotRendered` | controllers/statusmanager/status_manager.go:100-145 | the list growing inside the loop and the requests made are those of the sweep |
| `StatusManagers.StatusManager.SetClusterOperatorConditions` | controllers/statusmanager/status_manager.go:177-202 | conditions published over those read back; versions recorded only when the level is reached |
| `StatusManagers.StatusManager.SetAntreaInstallStatus` | controllers/statusmanager/status_manager.go:268-286 | the status is stored or the call ends as the read and the patch say; a missing AntreaInstall is no error |
| `StatusManagers.StatusManager.TryOpenShift` | controllers/statusmanager/status_manager.go:229-262 | one attempt: read, sweep, publish, compare, create or update, copy to the AntreaInstall |
| `StatusManagers.StatusManager.TryKubernetes` | controllers/statusmanager/status_manager.go:206-221 | one attempt, starting from no conditions |
| `StatusManagers.StatusManager.Set` | controllers/statusmanager/status_manager.go:205-266 | attempts repeat exactly while they end in a conflict |
| `StatusManagers.StatusManager.SyncDegraded` | controllers/statusmanager/status_manager.go:309-324 | the loop publishes the lowest failing level, or not degraded |
| `StatusManagers.StatusManager.SetDegraded` | controllers/statusmanager/status_manager.go:326-347 | raises one level and publishes |
| `StatusManagers.StatusManager.SetNotDegraded` | controllers/statusmanager/status_manager.go:336-353 | clears one level and publishes |
| `StatusManagers.StatusManager.GetLastPodState` | controllers/statusmanager/pod_status.go:173-215 | the stored snapshot, or nothing after a failed read and on Kubernetes |
| `StatusManagers.StatusManager.SetLastPodState` | controllers/statusmanager/pod_status.go:217-257 | stores both maps, retried while in conflict, and fails without a ClusterOperator |
| `StatusManagers.StatusManager.SetConditions` | controllers/statusmanager/status_manager.go:147-175 | Progressing from the lines, Available only when the level is reached |
| `StatusManagers.StatusManager.SetFromPods` | controllers/statusmanager/pod_status.go:61-168 | both passes, the snapshot and the three status writes, in this order |
| `StatusManagers.StatusManager.SetDaemonSets` | controllers/statusmanager/status_manager.go:355-359 | replaces the tracked daemon sets and nothing else |
| `StatusManagers.StatusManager.SetDeployments` | controllers/statusmanager/status_manager.go:361-365 | replaces the tracked deployments and nothing else |
| `StatusManagers.StatusManager.SetRelatedObjects` | controllers/statusmanager/status_manager.go:367-371 | replaces the related objects and nothing else |
| `StatusRuns.LedgerOverRuns` | controllers/statusmanager/status_manager.go:100-145 | over any run with any failures and restarts, what was listed is still listed, or was deleted, found gone, or is a core Namespace |
| `StatusRuns.NothingListedIsForgotten` | controllers/statusmanager/status_manager.go:228-266 | the same for objects listed at any point of a run, with the removal after that point |
| `StatusRuns.SweepIsExact` | controllers/statusmanager/status_manager.go:100-145 | a listed object that is not on the manager's list at its turn has its deletion requested exactly when its kind is known and is not the core Namespace, and stays listed exactly when its kind is unknown or its deletion failed other than by not being found |
| `StatusRuns.NamespacesAreSpared` | controllers/statusmanager/status_manager.go:119-130 | over any run no core Namespace and no object of unknown kind is deleted |
| `StatusRuns.RenderedIsSafe` | controllers/statusmanager/status_manager.go:100-145 | in every reachable state the rendered list is a prefix of the list, which has no duplicates if the rendered one has none, and no next operation deletes a rendered object |
| `StatusRuns.AvailableOnlyMovesForward` | controllers/statusmanager/status_manager.go:147-202 | on OpenShift Available goes absent, Startup, True and never back; a recorded version implies True |
| `StatusRuns.TypesStayUnique` | controllers/statusmanager/status_manager.go:177-202 | condition types stay unique over any run |
| `StatusRuns.TransitionTimesFollowFlips` | controllers/statusmanager/status_manager.go:228-266 | over any OpenShift run each transition time is the time of the last write that changed that type's status |
| `StatusVerdicts.CleanSetStores` | controllers/statusmanager/status_manager.go:205-266 | a write without faults stores the swept list, the published conditions and the version |
| `StatusVerdicts.DegradedIsLowestLevel` | controllers/statusmanager/status_manager.go:309-353 | after a reporting operation the published Degraded is that of the lowest failing level, on both platforms |
| `StatusVerdicts.LevelsFollowHistory` | controllers/statusmanager/status_manager.go:326-341 | a level is failing exactly as the last operation that touched it left it |
| `StatusVerdicts.DegradedFollowsHistory` | controllers/statusmanager/status_manager.go:309-371 | for any history, after a reporting operation whose last write met no fault and through any setters that follow it, the published Degraded is that of the lowest level raised and not cleared, or False with no reason and message |
| `StatusVerdicts.KubernetesNeverHung` | controllers/statusmanager/pod_status.go:210-215 | on Kubernetes, with distinct tracked names and no caller raising it directly, no run raises the RolloutHung level |
| `StatusPublished.KubernetesWritesInstallOnly` | controllers/statusmanager/status_manager.go:204-225 | on Kubernetes no run touches a ClusterOperator or its annotation, or deletes anything |
| `StatusVerdicts.AvailabilityIsExact` | controllers/statusmanager/pod_status.go:65-154 | across both loops the level is reached exactly when something is tracked and every tracked workload is found and rolled out |
| `StatusVerdicts.CleanSetFromPods` | controllers/statusmanager/pod_status.go:156-167 | after a fault-free call everything all three writes want is published at once |
| `StatusPublished.SetFromPodsPublishes` | controllers/statusmanager/status_manager.go:147-175 | after a fault-free call Progressing is True with reason Deploying and one line per missing or unfinished workload exactly if there is one, and False otherwise; Available is True and the version recorded if something is tracked and all of it is ready |
| `StatusPublished.LineSaysWhy` | controllers/statusmanager/pod_status.go:73-135 | each line gives the first reason that applies, with the numbers of the status |
| `StatusPublished.SetDegradedPublishes` | controllers/statusmanager/status_manager.go:326-347 | raising a level publishes its reason and message unless a more important one fails |
| `StatusPublished.SetNotDegradedPublishes` | controllers/statusmanager/status_manager.go:336-353 | clearing the last failing level publishes False with no reason and message |
| `StatusPublished.ConfigurationComesFirst` | controllers/statusmanager/status_manager.go:37-44 | the cluster configuration level comes before all others, the operator configuration level before the rest |
| `StatusPublished.HungPublishes` | controllers/statusmanager/pod_status.go:163-167 | if neither fails, the hung lines are published as Degraded with reason RolloutHung |
| `StatusPublished.ConflictsAreOvercome` | controllers/statusmanager/status_manager.go:205-266 | however many conflicts come first, what is to be published gets published |
| `StatusPublished.FailureIsFinal` | controllers/statusmanager/status_manager.go:205-266 | any other failure ends the call |
| `StatusPublished.SaveOkIff` | controllers/statusmanager/pod_status.go:238-252 | the snapshot is stored exactly when some attempt succeeds and all before it met a conflict |
| `StatusPublished.CleanSetCopies` | controllers/statusmanager/status_manager.go:242-261 | a fault-free write copies the conditions to the AntreaInstall whenever it updates them, and not when it creates the ClusterOperator |
| `StatusPublished.SetFromPodsCopies` | controllers/statusmanager/status_manager.go:242-286 | after a fault-free `SetFromPods` the copy is right whenever the conditions changed, and stays right |
| `StatusPublished.TracksFollowCalls` | controllers/statusmanager/status_manager.go:355-365 | over any run the tracked workloads are those handed over last |
| `StatusPublished.RelatedIsHandedOver` | controllers/statusmanager/status_manager.go:367-371 | in any reachable state the related objects become those handed over |
| `StatusVerdicts.SetFromPodsIsQuiescentIff` | controllers/statusmanager/pod_status.go:156-167 | a second call with the same observations and the same hung set writes no status and deletes nothing, whatever it is answered, exactly when the related list is not empty without being nil |
| `StatusVerdicts.KubernetesShowsDegradedAlone` | controllers/statusmanager/status_manager.go:205-225 | on Kubernetes, after a reporting operation whose last write meets no fault, exactly Degraded and Upgradeable are published |
| `StatusVerdicts.RelatedListIsNeverEmpty` | controllers/statusmanager/status_manager.go:367-371 | over any run no state has such a list unless a caller handed one over |
| `StatusHistory.SnapshotIsMemory` | controllers/statusmanager/pod_status.go:173-253 | over any run with any failed reads and writes the annotation's entry for a workload is the memory of the history whose snapshots were stored |
| `StatusHistory.HungOverRuns` | controllers/statusmanager/pod_status.go:61-168 | over any such run RolloutHung names a workload exactly when this call looked it up and that history, with what this call sees, says hung |
| `StatusHistory.HungReportSaysSince` | controllers/statusmanager/pod_status.go:106-109 | a report gives the time that is remembered as the start |
| `StatusHistory.HungIsJudgedByTrailingRun` | controllers/statusmanager/pod_status.go:61-168 | and this is exactly when its trailing run of identical unfinished observations began more than the timeout ago |
| `StatusHistory.LostWriteIsHarmlessIff` | controllers/statusmanager/pod_status.go:156-159 | a lost snapshot leaves the whole history remembered exactly when it would have stored the entry already there |
| `StatusHistory.HistoryIsRememberedIff` | controllers/statusmanager/pod_status.go:156-159 | over a run the whole history is remembered at every point exactly when every lost snapshot was of that kind |
| `StatusHistory.HungMatchesHistory` | controllers/statusmanager/pod_status.go:61-168 | and then the whole history decides who is named |
| `StatusHistory.HungIsTrailingRun` | controllers/statusmanager/pod_status.go:61-168 | by the trailing run of the whole history, strictly more than the timeout ago |
| `StatusHistory.ReadsKeepHistoryWhole` | controllers/statusmanager/pod_status.go:173-208 | if snapshots are read back the history is the whole list of observations |
| `StatusJustification.HungReportsAreJustified` | controllers/statusmanager/pod_status.go:61-168 | after any run with any failed reads and writes, a report is justified by all that was really seen unless the entry in the annotation misleads |
| `StatusJustification.TooEarlyIff` | controllers/statusmanager/pod_status.go:61-168 | some next call can report a tracked workload too early exactly when it misleads |
| `StatusJustification.HonestOverRunsIff` | controllers/statusmanager/pod_status.go:156-253 | over a run the annotation never claims more than was seen exactly when every lost snapshot was safe to lose |
| `StatusJustification.SafeLossesOnlyDelay` | controllers/statusmanager/pod_status.go:156-253 | and then no report ever comes too early, whatever reads failed |
| `StatusHistory.LostWriteReportsTooEarly` | controllers/statusmanager/pod_status.go:156-159 | a run from a new manager in which one lost snapshot leads to a report its whole history does not justify |
| `Configuration.InSlice` | controllers/config/config.go:292-299 | membership |
| `Configuration.StringSliceEqual` | controllers/config/config.go:301-311 | equal lengths, and every element of the first list somewhere in the second |
| `Configuration.SliceEqualIsPermutation` | controllers/config/config.go:301-311 | for a duplicate-free first list the test holds exactly for permutations |
| `Configuration.SliceEqualIsEquivalence` | controllers/config/config.go:301-311 | so it is symmetric and transitive on such lists |
| `Configuration.SliceEqualIsPermutationIff` | controllers/config/config.go:301-311 | it tells permutations from all other lists, and is symmetric, exactly when its first list has no duplicates |
| `Configuration.HasClusterNetworkConfigChange` | controllers/config/config.go:222-242 | changed if nothing was applied, or the service networks or cluster CIDRs differ under that test |
| `Configuration.BuildNetworkStatus` | controllers/config/config.go:273-290 | the loops copy both lists, in order, with the network type and the MTU |
| `Configuration.FillAgentConfig` | controllers/config/config.go:39-69 | the spec after the fill, in place, or the error |
| `Configuration.FillClusterCIDRs` | controllers/config/config.go:86-103 | the loop with found flags appends the first CIDR of each family and takes its mask size |
| `Configuration.FillServiceCIDRs` | controllers/config/config.go:105-121 | the loop with found flags takes the first service CIDR of each family and keeps absent ones |
| `Configuration.FillControllerConfig` | controllers/config/config.go:71-130 | the spec after the fill, in place, or the error |
| `Configuration.FillConfig` | controllers/config/config.go:132-151 | both fills and the default image, stopping at the first error |
| `Configuration.FirstsAreFirsts` | controllers/config/config.go:86-103 | the appended entries are the first of each family, each once, in order of appearance |
| `Configuration.ControllerFillIsExact` | controllers/config/config.go:71-130 | in the parsed configuration after the fill the NodeIPAM gate and flag are on, the CIDRs are the old ones followed by the first of each family in order, each family's mask size and service CIDR are those of its first entries and stay if there are none, and nothing else changes |
| `Configuration.FreshFillHasOnePerFamily` | controllers/config/config.go:86-103 | with no prior CIDRs there is at most one per family, and every first one is there |
| `Configuration.FillThenValidate` | controllers/config/config.go:132-190 | after a successful fill validation succeeds, every other agent option is unchanged, and the default MTU is present |
| `Configuration.FillSucceedsIff` | controllers/config/config.go:39-151 | exactly when a fill succeeds |
| `Configuration.ValidIff` | controllers/config/config.go:161-190 | exactly which configurations are valid |
| `Configuration.AgentFillIsExact` | controllers/config/config.go:39-69 | a service CIDR the cluster has is kept and any other replaced by its first, on Kubernetes it is the user's; MTU and image have their defaults; the controller configuration is left alone on Kubernetes |
| `Configuration.MTUChangeHasNoError` | controllers/config/config.go:244-271 | so the later MTU test cannot fail, and reports the filled MTU |
| `Configuration.KubernetesFillIsIdempotent` | controllers/config/config.go:132-159 | filling a filled Kubernetes configuration gives it back |
| `Configuration.OpenShiftFillIsIdempotentIff` | controllers/config/config.go:71-130 | an OpenShift one is given back exactly when there are no cluster networks |
| `Reconcilers.AntreaInstallReconciler.GetAppliedOperConfig` | controllers/antreainstall_controller.go:365-408 | the memory, or what the ConfigMap and the controller deployment hold |
| `Reconcilers.AntreaInstallReconciler.UpdateStatusManagerAndSharedInfo` | controllers/antreainstall_controller.go:433-483 | the tracked workloads of both kinds, the related objects with a REST mapping, and the last agent and controller objects are handed over; if an owner reference fails or a workload is missing, the level is raised and nothing is handed over |
| `Reconcilers.AntreaInstallReconciler.ApplyObjects` | controllers/antreainstall_controller.go:117-124 | exactly the objects before the first failure are applied |
| `Reconcilers.AntreaInstallReconciler.DeleteOldPods` | controllers/antreainstall_controller.go:126-142 | which pods are deleted, and the early exit |
| `Reconcilers.AntreaInstallReconciler.ApplyConfiguration` | controllers/antreainstall_controller.go:71-146 | fill, validate, compare, render, share, apply, delete, with every error exit |
| `Reconcilers.AntreaInstallReconciler.UpdateNetworkStatus` | controllers/antreainstall_controller.go:270-282 | the network status is written exactly when the cluster networks or the MTU changed |
| `Reconcilers.AntreaInstallReconciler.Reconcile` | controllers/antreainstall_controller.go:361-363 | one round on either platform |
| `Reconcilers.AntreaInstallReconciler.ReconcileKubernetes` | controllers/antreainstall_controller.go:185-213 | the Kubernetes round with its shortcut and exits |
| `Reconcilers.AntreaInstallReconciler.ReconcileOpenShift` | controllers/antreainstall_controller.go:215-292 | the OpenShift round with its two shortcuts and exits |
| `Reconcilers.AntreaInstallReconciler.ReportNoInstall` | controllers/antreainstall_controller.go:148-163 | what a missing or unreadable AntreaInstall raises |
| `ReconcileRuns.ClusterFollowsApplied` | controllers/antreainstall_controller.go:71-146 | over any fault-free sequence of inputs and restarts the ConfigMap and the images of both workloads are those of the applied configuration |
| `ReconcileRuns.KnownMTUOverRuns` | controllers/antreainstall_controller.go:271-289 | over any run with any faults the applied configuration has an integer default MTU |
| `ReconcileRuns.ShareIsExact` | controllers/antreainstall_controller.go:433-483 | all workloads of both kinds are tracked and exactly the objects with a REST mapping are related, in manifest order; the shared specs are the last workloads of their kinds |
| `ReconcileRuns.RoundHandsOver` | controllers/antreainstall_controller.go:113-116 | a round hands over nothing new, or exactly what its own rendering makes |
| `ReconcileRuns.HandedOverRuns` | controllers/antreainstall_controller.go:433-483 | over any run with any faults what is handed over is exactly what some rendering of the manifest makes |
| `OperatorRuns.OperatorIsNeverNoisy` | controllers/antreainstall_controller.go:477-479 | so over any run of the status manager that is told what a reconciler handed over, its list is never empty without being nil |
| `ReconcileRuns.RestartDecidesAlike` | controllers/antreainstall_controller.go:365-408 | a restarted operator rebuilds a configuration that decides every change as the forgotten one did |
| `ReconcileRuns.ReadBackIsExact` | controllers/antreainstall_controller.go:365-408 | without a memory, what is read back, when it is an error, and when it means that nothing was applied |
| `ReconcileRuns.RestartedRoundIsQuiet` | controllers/antreainstall_controller.go:365-408 | after a fault-free run and a restart, reconciling the same resources applies nothing and deletes no pod, and remembers the configuration again |
| `ReconcileRuns.PodsDeletedExactly` | controllers/antreainstall_controller.go:126-142 | pods are deleted exactly when their part of the held configuration changes, the image does not, and the operator has not just restarted |
| `ReconcileFaults.RestartLosesPodDeletion` | controllers/antreainstall_controller.go:71-292 | after a fault-free run a changed configuration is applied by the next round either way; it deletes exactly the pods of the changed parts if the image stays, and none after a restart |
| `ReconcileRuns.FinishedIsLast` | controllers/antreainstall_controller.go:185-292 | after a finished round the applied configuration is the fill of that round's inputs |
| `ReconcileRuns.ReconcileAgainIsCalm` | controllers/antreainstall_controller.go:185-292 | reconciling the same resources again, with any faults, applies nothing, deletes no pod, writes no network status and keeps the applied configuration |
| `ReconcileRuns.FinishedRoundIsFinal` | controllers/antreainstall_controller.go:185-292 | so a finished round is final for its inputs |
| `ReconcileRuns.KubernetesShortcutAgrees` | controllers/antreainstall_controller.go:163-168 | in every reachable state, for a spec equal to the applied one, the full Kubernetes path also writes nothing and leaves it applied |
| `ReconcileRuns.OpenShiftShortcutDisagrees` | controllers/antreainstall_controller.go:163-168 | on OpenShift the full path would find the controller changed exactly when there are cluster networks |
| `ReconcileRuns.NetworkStatusFollowsApplied` | controllers/antreainstall_controller.go:270-289 | over any OpenShift run with any faults the last written status has the applied service networks and CIDRs as multisets and the applied MTU |
| `ReconcileReports.WrittenStatusIsExact` | controllers/config/config.go:273-290 | a written status has the service networks, the cluster networks with their host prefixes, the network type, and the default MTU |
| `ReconcileReports.RoundReports` | controllers/antreainstall_controller.go:71-292 | a round clears both levels exactly when it finishes; when it fails it raises one level, with the reason of the first step that failed |
| `ReconcileReports.EarlyExits` | controllers/antreainstall_controller.go:148-270 | the exits before that, in their order, with the level and reason of each |
| `ReconcileFaults.PartialApplyKeepsSyncIff` | controllers/antreainstall_controller.go:117-124 | a loop that stops after n objects keeps the cluster in step with the held configuration, in the ConfigMap and in both images, exactly when none of them carries a difference |
| `ReconcileFaults.FailedRoundKeepsSyncIff` | controllers/antreainstall_controller.go:71-292 | a round on either platform that does not finish, with any manifest and faults, leaves the cluster in step with the applied configuration exactly when no object it applied carries a difference |
| `ReconcileFaults.RevertKeepsSyncIff` | controllers/antreainstall_controller.go:71-292 | the round that reverts it writes nothing and reports success, so it ends in step exactly under the same condition |
| `ReconcileFaults.CleanApplyRepairsIff` | controllers/antreainstall_controller.go:71-146 | from any state a fault-free apply installs everything if it finds a change and nothing otherwise, so the cluster holds the configuration exactly if a change was found or it held it before |
| `ReconcileFaults.CleanRoundRepairsIff` | controllers/antreainstall_controller.go:185-292 | the same for whole rounds, which always report success |
| `ReconcileFaults.RetryRepairsIff` | controllers/antreainstall_controller.go:71-292 | after a round whose applies fail at an object, from any state on either platform, the next fault-free round repairs the cluster exactly if the operator has a memory, or the two objects read back do not yet read as new, or the agents were reached or had that image |
| `ReconcileFaults.PartialInstallLooksCompleteIff` | controllers/antreainstall_controller.go:71-292 | a first installation that failed at an object is taken for complete exactly when the ConfigMap and the controller deployment came before it, with or without the agents |
| `ReconcileFaults.RestartedUpgradeKeepsOldAgents` | controllers/antreainstall_controller.go:365-408 | without a memory, an upgrade that reached both but not the agents is taken for complete with the agents on their old image |
| `LockProtocol.NoDeadlock` | controllers/pod_controller.go:53-118 | in every interleaving no thread waits for a lock it holds, SharedInfo is never awaited inside the status manager, and a blocked thread waits for one that is not blocked |
| `LockProtocol.NeverDereferencesUnset` | controllers/pod_controller.go:69-94 | the reads under the lock never meet an unset spec, despite the unlocked check |
| `LockProtocol.RecreatesLatest` | controllers/pod_controller.go:83-118 | whatever is recreated is the object of the most recently shared rendering |
| `LockProtocol.RecreatesWhatWasRequested` | controllers/pod_controller.go:83-118 | and the object that was asked for, if renderings do not rename the two workloads |
| `LockProtocol.RecreatesOnlyWhatIsMissing` | controllers/pod_controller.go:95-118 | an object is recreated only after the lookup for its own request was answered not found, once for each such answer |
| `LockProtocol.MissingIsRecreated` | controllers/pod_controller.go:95-118 | once the lookup is answered not found and the apply succeeds, whatever the install reconciler does in between, exactly one object is recreated, the latest stored one |
| `LockProtocol.ReportsFirst` | controllers/pod_controller.go:53-64 | nothing is looked up or recreated before `SetFromPods` was called for the request |
| `LockProtocol.RequestIsTakenUp` | controllers/pod_controller.go:69-81 | a request for a stored object is taken up |
| `Roles.MergeRule` | hack/generate-role-yaml.py:19-33 | the loops over URLs, groups and resources compute one rule's effect on the two tables |
| `Roles.MergeDocs` | hack/generate-role-yaml.py:16-33 | the loop over documents merges the rules of the ClusterRoles, in order |
| `Roles.Merge` | hack/generate-role-yaml.py:10-33 | the loop over files merges all rules, in order |
| `Roles.AllRulesAreRead` | hack/generate-role-yaml.py:12-18 | the rules merged are those of the ClusterRoles in all files, and no others |
| `Roles.Emit` | hack/generate-role-yaml.py:35-41 | every table entry is written once, resources in the order of group and name and then URLs in order, and nothing else |
| `Roles.Generate` | hack/generate-role-yaml.py:10-42 | every mentioned resource and URL is written once, in order, with exactly the union of its verbs, plus patch for resources |
| `Roles.OutputIsDetermined` | hack/generate-role-yaml.py:35-41 | the order leaves no freedom: equal entries make equal outputs |
| `Roles.GrantsExactlyTheUnion` | hack/generate-role-yaml.py:19-33 | the merged tables grant exactly that |
| `Roles.MergeIgnoresOrder` | hack/generate-role-yaml.py:19-33 | the merge depends on which rules there are, not on their order or number |

The theorems about runs of the status manager start from any state whose failing levels hold
only failures (`DegradedOnly`), which is true of a new manager, and state what more they need:
distinct tracked names for hung detection, no Available condition out of line for the order in
which it moves.

## Left out

- The client transport, watches, REST mapping details, controller-runtime setup and `main.go`: input and output.
- YAML, JSON, templates, message text and time formatting; an error while printing YAML or JSON is not modelled.
- The second resolution of stored times: a time is compared with what was written, not with its rounding.
- Backoff delays of the conflict retry: a script bounds the attempts, a call whose script runs out gives up.
- StatusManagers.StatusManager.Set: the retried closure is a method that calls itself while attempts end in a conflict, in place of the library's loop.
- The two statuses of a workload are one datatype; status fields that are only compared are one string.
- Roles.Emit: verb lists are sets, so the order of the verbs in a rule is not stated.
- A rule for URLs without verbs, on which the script raises an exception: every rule has a verb list.
- Reconcilers.AntreaInstallReconciler.GetAppliedOperConfig: the lookup of the ConfigMap by name prefix in a list is reduced to one ConfigMap.
- Reconcilers.AntreaInstallReconciler.UpdateStatusManagerAndSharedInfo: workloads and related objects are handed over as rendered objects, in place of their names and references.
- ReconcileRuns.NetworkStatusFollowsApplied: host prefixes, list order and network type are outside the claim, because the change test does not compare them.
- ReconcileRuns.ClusterFollowsApplied: holds without faults only; `ReconcileFaults.dfy` says exactly what a fault breaks.  Of the agent DaemonSet its image is compared, not its CNI directory, which is no part of the applied configuration.
- A change of the operator Network alone, such as its CNI directory, is not compared by the source and triggers no apply.
- The status copied to the AntreaInstall on OpenShift after a failed patch: it is refreshed only when the ClusterOperator changes, so no equality is claimed.
- Clearing degraded levels on the early exits of a round: the source does not do it.
- The pod controller is a step machine and no class, because its claim is about interleavings; the content of its calls into the status manager is covered by the status manager's own theorems.
- IP and CIDR parsing, generated deep copies, manifests, shell scripts and the sample generator.
