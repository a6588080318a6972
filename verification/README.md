# Verified model of the functions operator and its object bucket source

This project models the parts of the repository where several activities meet
and where the order of steps matters, and proves what they guarantee. The code is
Go; the model is Dafny. Code that changes things step by step is modelled by
methods, loops and classes, proved against specification functions; concurrent
activities are modelled as systems of atomic steps that interleave freely, and the
theorems quantify over all runs.

| file | subject |
|---|---|
| `Text.dfy` | prefixes, trimming, splitting and joining; `splitAndTrim` and its round trip |
| `NotificationSettings.dfy` | resolving the adapter's settings, the default ConfigMap, when to restart |
| `Fingerprint.dfy` | the bytes that `kafkaFingerprint` hashes, and a decoder for them |
| `HotReload.dfy`, `HotReloadTheorems.dfy` | the hot-reload protocol: two reloading goroutines, the supervisor, the Secret watcher and the runners |
| `CredentialFreshness.dfy` | exactly which publication histories can leave a runner with stale credentials |
| `ConfigProvider.dfy` | the provider as an object with mutable fields |
| `Sequences.dfy`, `EventDispatch.dfy` | event matching, dispatch, and why one merged subscription per bucket is enough |
| `SourceLifecycle.dfy` | the ObjectBucketSource controller with users and a lagging cache |
| `FunctionStatus.dfy`, `FunctionHistory.dfy` | conditions with the Ready summary, and the bounded history |
| `FunctionResource.dfy`, `StatusTracker.dfy` | the shared, versioned Function object, and writing its status |
| `FunctionReconciler.dfy` | one reconcile of a Function, and any sequence of them |
| `FunctionQueue.dfy` | how a Function gets into the work queue, also by the operator's own writes |
| `ConsolePlugin.dfy` | creating and deleting the six resources of the console plugin |

`dafny verify dfyconfig.toml` checks everything.

## What the main results say

**Hot reload.** A reload publishes the settings and the Kafka triple under two
locks, then signals over channels that hold at most one signal. In every reachable
state of every interleaving, a supervisor whose runner is out of date has a signal
waiting, or a reload between its write and its signal, or is about to compare
again (`NoReloadIsLost`); the same holds for the Secret watcher
(`SecretWatcherFollows`). Left alone, the adapter comes to rest in whatever order
its steps are scheduled, and then runs with what is published
(`EveryChangeTakesEffect`). That the configuration a runner *read* is the published
one is false in general: `run` reads it after the snapshot. The project proves the
exact condition on the sequence of publications (`StaleExactlyWhenReturned`), with
the run that goes wrong constructed for every history that violates it, and that
it cannot happen if a replaced fingerprint is never published again
(`CredentialsAreFresh`).

What is published comes from answers that the API server gave to one reload, ConfigMap
and Secret together (`OnlyAnswersArePublished`); a reload succeeds exactly if the
ConfigMap can be read, its settings are valid and a Secret that it names can be read,
and changes nothing otherwise (`ConfigProvider.Provider.LoadConfig`). Both goroutines
can reload whenever they are not doing so (`ReloadPublishes`), and a runner that gives
up is replaced (`FailedRunnerIsReplaced`).

**Subscriptions.** A bucket has one notification configuration, the union of what
its sources want, and the adapter filters per source. A source that reports
BucketNotificationSet for its current generation is covered in every reachable
state, with a cache that lags arbitrarily far behind but never goes backwards
(`Coverage`), and so receives exactly what a private subscription would have given
it, in order and once each (`ClaimedSourceMissesNothing`). A source that the worker
turns to, seeing it as it is, gets its finalizer, then its subscription, and a deleted
one goes away and leaves exactly the patterns of the others
(`SubscriptionCompletes`, `DeletionCompletes`).

**Codecs.** Writing the default ConfigMap changes nothing for any flags
(`DefaultConfigMapChangesNothing`); for arbitrary defaults the exact condition is
proved (`DefaultConfigMapResolution`). The fingerprint's pre-image does not depend
on map order, and among Secrets without zero bytes it identifies the Secret
(`FingerprintIdentifies`). The comment in the code claims that two calls return the
same value only for identical contents. That is false for every Secret with two keys
or more, so for any realistic Kafka Secret: another Secret that the API server admits,
with a zero byte inside a value, has the same bytes (`Twin`). A Secret without zero
bytes cannot be mistaken for any other exactly if it has at most one key
(`IdentifiedExactly`).

**Functions.** Over any sequence of reconciles every write that takes effect, also
one that is reported as failed, either drops the prefixed annotations present at that
time and nothing else, or stores a status and nothing else. Every stored status is
consistent: PendingRebuild implies MiddlewareUpToDate is not True and Ready is False,
whatever fails and whatever stale status was read (`WritesAreHarmless`). The final
status of a reconcile says Ready=True exactly if its own world gave the evidence for
the specification it had read, and the deployments are exactly those of the reconciles
that had to deploy (`FunctionReconciler.ReconcileAll`). A reconcile that reports
success leaves the stored status equal to the one in memory, however many writes
failed or got lost and however old the copy was that it started from
(`FunctionReconciler.Reconcile`, `SuccessMeansStored`): each reconcile stamps its
conditions anew, so a flush is skipped only after one that was saved.

Every edit of the specification and every change of the operator's ConfigMap is
followed by a reconcile that can read it before the operator rests
(`EveryEditIsReconciled`), and the status then shows what the world of the reconcile
was like (`FunctionReconciler.Reconcile`).

The operator does not trigger itself forever (`QueueDrains`, `RestIsClean`). Left
alone, an annotation adds at most one reconcile to the one it asks for and to those
that are pending anyway, exactly if the Function is not being reconciled and nothing
is pending when it arrives (`AnnotationCost`). Otherwise it can add two: the reconcile
that does not see the annotation yet flushes the status of an annotated object, which
passes the watch's predicate, and so does the next one. Failures are accounted for
with the status that a failing reconcile still flushes (`StartsBounded`).

**Console plugin.** Starting from none, the resources form a prefix of their order
after every single call, for every failure and every switching on and off
(`ConsolePlugin.ReconcileAll`). Replacing a foreign RoleBinding deletes it first;
that breaks the order for a moment exactly if there is a Service already
(`ReplacingBreaksOrder`). If no call fails and what has to be looked up is there, a
reconcile succeeds.

Things a reader of the code may not expect, and which the model keeps: after a
reload that needs no restart the supervisor goes on comparing with its *first*
snapshot; the available middleware version is not cleared when the middleware is
found to be up to date; the revision is not refreshed after a redeployment; a
failed lookup of the ClusterRoleBinding leaves the Deployment's owner reference
set.

## Model

| member | source | states |
|---|---|---|
| `Text.SplitAndTrim` | internal/objectbucketsource/config/config.go:577-585 | the loop computes the trimmed non-empty entries, in order |
| `Text.JoinRoundTrip` | internal/objectbucketsource/config/config.go:577-585 | a list survives being joined with commas and read back exactly if its entries are non-empty, trimmed and free of commas |
| `Text.EntriesStable` | cmd/objectbucket-notifications-adapter/main.go:299-307 | whatever string was read, its entries survive being written and read again |
| `NotificationSettings.ParseAcceptsExactlyValid` | internal/objectbucketsource/config/config.go:508-543 | parsing accepts exactly what resolves to settings that are fit to run, and changes nothing in them |
| `NotificationSettings.AskedForIsResolved` | internal/objectbucketsource/config/config.go:508-543 | every setting can be asked for under its own key, and the defaults fill in for those that are not |
| `NotificationSettings.RejectedFor` | internal/objectbucketsource/config/config.go:508-543 | which error is reported for which settings |
| `NotificationSettings.DefaultsFromFlags` | cmd/objectbucket-notifications-adapter/main.go:205-210 | the defaults built from the flags |
| `NotificationSettings.DefaultDataLookups` | internal/objectbucketsource/config/config.go:164-191 | what each notification key of the default ConfigMap holds, and when it is absent |
| `NotificationSettings.DefaultConfigMapResolution` | internal/objectbucketsource/config/config.go:164-191 | for any defaults, the default ConfigMap resolves like an empty one exactly if both default lists are kept by the comma-separated form |
| `NotificationSettings.DefaultConfigMapChangesNothing` | cmd/objectbucket-notifications-adapter/main.go:205-233 | for all flags, parsing the default ConfigMap gives the same settings or error as parsing an empty one |
| `NotificationSettings.StringSlicesEqual` | internal/objectbucketsource/notificationserver/server.go:246-256 | the loop decides equality of the slices |
| `NotificationSettings.NotificationSettingsEqual` | internal/objectbucketsource/notificationserver/server.go:239-244 | true exactly for equal settings |
| `NotificationSettings.NeedsRestart` | internal/objectbucketsource/notificationserver/server.go:221-229 | a restart is needed exactly if the settings differ, or Kafka is in use and the fingerprints differ |
| `Fingerprint.KafkaFingerprint` | internal/objectbucketsource/config/config.go:556-573 | whatever order the map is ranged over, the bytes written to the hash are the same function of name and data |
| `Fingerprint.SortedUnique` | internal/objectbucketsource/config/config.go:561-565 | sorting the keys leaves only one possible order |
| `Fingerprint.PreimageDecodes` | internal/objectbucketsource/config/config.go:556-573 | without zero bytes a decoder recovers the name and the whole map |
| `Fingerprint.FingerprintIdentifies` | internal/objectbucketsource/config/config.go:552-573 | equal pre-images exactly for equal name and data, if there are no zero bytes in one and none, or not fewer keys, in the other |
| `Fingerprint.Twin` | internal/objectbucketsource/config/config.go:552-573 | every Secret with two keys or more has another one, with a proper subset of its keys, with the same bytes under every name |
| `Fingerprint.IdentifiedExactly` | internal/objectbucketsource/config/config.go:552-573 | a Secret without zero bytes has a fingerprint of its own, among all Secrets with zero bytes in values only, exactly if it has at most one key |
| `Fingerprint.ZeroByteCollision` | internal/objectbucketsource/config/config.go:565-571 | with a zero byte in a value two different Secrets give the same bytes |
| `HotReload.StepInv` | internal/objectbucketsource/notificationserver/server.go:54-124 | every step of either reload, the Secret watcher, the supervisor or a runner keeps the invariants of the protocol |
| `HotReload.LoadStepInv` | internal/objectbucketsource/config/config.go:257-324 | a reload's two writes and two signals, in this order, lose no change |
| `HotReload.WatchStepInv` | internal/objectbucketsource/config/config.go:395-466 | the Secret watcher consumes reload signals without losing a changed reference |
| `HotReload.SupStepInv` | internal/objectbucketsource/notificationserver/server.go:43-124 | torn snapshots, comparison, cancelling and collecting the runner keep the invariants |
| `HotReload.StepConfigsValid` | internal/objectbucketsource/config/config.go:257-312 | no step lets an invalid configuration in |
| `HotReload.ReachableInv` | internal/objectbucketsource/notificationserver/server.go:43-147 | the invariants hold in every reachable state |
| `HotReload.LoadMeaning` | internal/objectbucketsource/config/config.go:257-288 | a reload succeeds exactly if the ConfigMap is readable, its settings parse and a Secret it names was read, and loads just what was read |
| `HotReload.OnlyAnswersArePublished` | internal/objectbucketsource/config/config.go:257-299 | in every run all that was published or run with comes from the answers to one reload of that run |
| `HotReloadTheorems.NoReloadIsLost` | internal/objectbucketsource/notificationserver/server.go:73-124 | if the running snapshot is outdated, a signal is waiting, a reload has yet to send one, or the supervisor is about to compare, and then stops the runner |
| `HotReloadTheorems.OneRunnerAtATime` | internal/objectbucketsource/notificationserver/server.go:54-124 | at most one call of run is active or uncollected, none unless the supervisor is responsible for it, none after Start has returned |
| `HotReloadTheorems.OnlyValidConfigsRun` | internal/objectbucketsource/notificationserver/server.go:128-147 | all published and running settings are valid, and a runner serving in Kafka mode has built producer and consumer |
| `HotReloadTheorems.SecretWatcherFollows` | internal/objectbucketsource/config/config.go:395-466 | if the watched name is not the published one, a reload signal is waiting or on its way |
| `HotReloadTheorems.ReloadPublishes` | internal/objectbucketsource/config/config.go:257-312 | either goroutine can reload in every reachable state in which it is not doing so, and a reload that succeeds is published and signalled |
| `HotReloadTheorems.FailedRunnerIsReplaced` | internal/objectbucketsource/notificationserver/server.go:89-103 | a runner without producer or consumer, or whose server ends, is replaced by one with the configuration published then |
| `HotReloadTheorems.ShutsDown` | internal/objectbucketsource/notificationserver/server.go:54-103 | from every reachable state the adapter can be shut down, and then ends without a runner |
| `HotReloadTheorems.QuietIsUpToDate` | internal/objectbucketsource/notificationserver/server.go:73-124 | at rest the runner has the published settings, and the published fingerprint if Kafka is in use |
| `HotReloadTheorems.QuietReads` | internal/objectbucketsource/notificationserver/server.go:128-176 | at rest the runner has read only publications from its snapshot's on |
| `HotReloadTheorems.InternalRunsEnd` | internal/objectbucketsource/notificationserver/server.go:54-124 | the adapter's own steps are bounded by a measure, in every order |
| `HotReloadTheorems.SettledShape` | internal/objectbucketsource/notificationserver/server.go:54-124 | when no step of its own is left, the adapter has shut down, or is at rest and watches the published Secret |
| `HotReloadTheorems.EveryChangeTakesEffect` | internal/objectbucketsource/notificationserver/server.go:54-124 | from every reachable state every schedule ends with the published configuration running, or with no runner after shutdown |
| `HotReloadTheorems.Settle` | internal/objectbucketsource/notificationserver/server.go:54-124 | such an end can always be reached |
| `CredentialFreshness.StaleMeansReturned` | internal/objectbucketsource/notificationserver/server.go:128-176 | stale credentials at rest mean that a fingerprint came back after a different configuration |
| `CredentialFreshness.ReturnedLeavesStale` | internal/objectbucketsource/notificationserver/server.go:43-176 | every such history has a run that ends with stale credentials |
| `CredentialFreshness.StaleExactlyWhenReturned` | internal/objectbucketsource/notificationserver/server.go:128-176 | both directions, for every sequence of publications |
| `CredentialFreshness.NeverRepublishedNeverReturned` | internal/objectbucketsource/config/config.go:294-298 | if no replaced fingerprint is published again and no zero bytes occur, none comes back after a different configuration |
| `CredentialFreshness.CredentialsAreFresh` | internal/objectbucketsource/notificationserver/server.go:128-176 | then at rest every client configuration the runner has read is the published one |
| `ConfigProvider.Provider.Subscribe` | internal/objectbucketsource/config/config.go:219-225 | adds an empty channel, leaves the others alone |
| `ConfigProvider.Provider.NotifySubscribers` | internal/objectbucketsource/config/config.go:227-236 | afterwards every channel holds a signal |
| `ConfigProvider.Provider.LoadConfig` | internal/objectbucketsource/config/config.go:257-312 | succeeds exactly if ConfigMap, settings and a referenced Secret are there; then what was read is published and everyone signalled; else every field and signal is unchanged |
| `ConfigProvider.UninterruptedLoad` | internal/objectbucketsource/config/config.go:290-309 | the protocol's five steps of a reload, uninterrupted, add up to LoadConfig |
| `EventDispatch.MatchEventMeaning` | internal/objectbucketsource/eventmatch/match.go:7-16 | a trailing star matches any rest, everything else itself, with or without the s3 prefix |
| `EventDispatch.KindsOfRecords` | internal/objectbucketsource/notificationserver/handler.go:80-93 | which records are test events, which are data and what is kept of them, and which are dropped |
| `EventDispatch.SortRecords` | internal/objectbucketsource/notificationserver/handler.go:74-100 | test events and data records are told apart, in order, and unusable records are dropped |
| `EventDispatch.MatchRecords` | internal/objectbucketsource/notificationserver/handler.go:138-151 | the nested loops collect exactly the records the source selects |
| `EventDispatch.SelectedMeaning` | internal/objectbucketsource/notificationserver/handler.go:138-151 | a source's records are those on its bucket that some pattern of its matches, in order and once each |
| `EventDispatch.WhereItGoes` | internal/objectbucketsource/notificationserver/handler.go:153-175 | to the topic of a kafka: sink if there is a producer, else to the URI, with all records, and nothing if there are none |
| `EventDispatch.DispatchDataEvents` | internal/objectbucketsource/notificationserver/handler.go:131-177 | every source gets one dispatch with exactly its records, or none if it has none or cannot be reached |
| `EventDispatch.BatchingIrrelevant` | internal/objectbucketsource/notificationserver/handler.go:74-100 | how records are grouped into notifications does not matter |
| `EventDispatch.MergeThenFilter` | internal/objectbucketsource/notificationserver/handler.go:131-155 | merged subscription plus filtering gives a source what a private subscription would, for every stream that covers it |
| `SourceLifecycle.ComputeMergedEvents` | internal/objectbucketsource/controller/objectbucketsource_controller.go:231-258 | the loops yield each pattern of the live, non-excluded sources of the claim exactly once |
| `SourceLifecycle.MergedOfItems` | internal/objectbucketsource/controller/objectbucketsource_controller.go:231-258 | the order of the list does not matter |
| `SourceLifecycle.InsideInv` | internal/objectbucketsource/controller/objectbucketsource_controller.go:70-194 | every step of the worker keeps the invariants, whatever fails and however old its copy and its list are |
| `SourceLifecycle.OutsideInv` | internal/objectbucketsource/controller/objectbucketsource_controller.go:70-194 | so does everything users do to sources |
| `SourceLifecycle.ReachableInv` | internal/objectbucketsource/controller/objectbucketsource_controller.go:70-194 | the invariants hold in every reachable state |
| `SourceLifecycle.Coverage` | internal/objectbucketsource/controller/objectbucketsource_controller.go:117-136 | a live source that reports success at its current generation has all its events configured |
| `SourceLifecycle.FreshPutIsExact` | internal/objectbucketsource/controller/objectbucketsource_controller.go:119-131 | after listing from an up-to-date cache a successful put leaves exactly the live sources' events |
| `SourceLifecycle.FreshRemovalIsExact` | internal/objectbucketsource/controller/objectbucketsource_controller.go:164-183 | after listing from an up-to-date cache an effective update on deletion leaves exactly the other live sources' events |
| `SourceLifecycle.ClaimIsReachable` | internal/objectbucketsource/controller/objectbucketsource_controller.go:84-136 | every source can get to report success |
| `SourceLifecycle.FinalizerComesFirst` | internal/objectbucketsource/controller/objectbucketsource_controller.go:85-91 | a live source without finalizer gets one and nothing else |
| `SourceLifecycle.SubscriptionCompletes` | internal/objectbucketsource/controller/objectbucketsource_controller.go:117-136 | a live source ends up reporting how the put went, for its current generation, and an applied one leaves exactly the live patterns |
| `SourceLifecycle.UnreadyClaimIsReported` | internal/objectbucketsource/controller/objectbucketsource_controller.go:96-115 | a claim that is not ready is reported, and nothing else changes |
| `SourceLifecycle.UsersAreFree` | internal/objectbucketsource/controller/objectbucketsource_controller.go:70-91 | whatever users do at any time: an edit voids the claim, a source without finalizer is gone at once |
| `SourceLifecycle.DeletionIsReachable` | internal/objectbucketsource/controller/objectbucketsource_controller.go:81-82 | a deleted source kept by its finalizer is reachable |
| `SourceLifecycle.DeletionCompletes` | internal/objectbucketsource/controller/objectbucketsource_controller.go:139-194 | the worker removes a deleted source, and the bucket keeps exactly the patterns of the other live ones |
| `SourceLifecycle.DeletionCompletesAnyway` | internal/objectbucketsource/controller/objectbucketsource_controller.go:139-194 | it removes it as well if the bucket cannot be dealt with |
| `SourceLifecycle.ClaimedSourceMissesNothing` | internal/objectbucketsource/notificationserver/handler.go:131-155 | end to end: while a source reports success it receives exactly what it asked for |
| `FunctionStatus.SetConditionAt` | api/v1alpha1/function_lifecycle.go:39-54 | setting a condition replaces the one of its type in place |
| `FunctionStatus.MarkedShape` | api/v1alpha1/function_lifecycle.go:92-203 | after any marks there are the five conditions in order, each showing its last mark |
| `FunctionStatus.AllReadyMeaning` | api/v1alpha1/function_lifecycle.go:56-88 | Ready holds exactly if every other condition does |
| `FunctionStatus.LastFailureDecides` | api/v1alpha1/function_lifecycle.go:56-88 | the reason and message are those of the last False condition |
| `FunctionStatus.FirstUndecidedDecides` | api/v1alpha1/function_lifecycle.go:56-88 | without one, the reason is that of the first Unknown condition that has one |
| `FunctionStatus.ReadyOfFive` | api/v1alpha1/function_lifecycle.go:56-88 | calculating Ready changes no other condition, keeps the five in order, and explains them |
| `FunctionStatus.ReadySummarizes` | api/v1alpha1/function_lifecycle.go:39-203 | the same after initialization and any sequence of marks |
| `FunctionHistory.SortByTime` | api/v1alpha1/function_lifecycle.go:228-230 | sorts newest first and loses nothing |
| `FunctionHistory.RecordEntry` | api/v1alpha1/function_lifecycle.go:217-234 | appends, sorts and cuts to twenty |
| `FunctionHistory.NewestStep` | api/v1alpha1/function_lifecycle.go:217-234 | one more event keeps: newest first, the right number, and nothing dropped is newer than anything kept |
| `FunctionHistory.HistoryIsNewest` | api/v1alpha1/function_lifecycle.go:207-234 | so after any number of events with times in any order |
| `FunctionHistory.RetainedTimesDetermined` | api/v1alpha1/function_lifecycle.go:228-233 | the retained times are determined by what was recorded, although the sort is not stable |
| `FunctionHistory.ArrivalOrderIrrelevant` | api/v1alpha1/function_lifecycle.go:217-234 | recording the same events in another order retains the same times |
| `FunctionResource.Function.InitializeConditions` | api/v1alpha1/function_lifecycle.go:39-54 | whatever conditions there were, five fresh ones result and nothing else changes |
| `FunctionResource.Function.CalculateReadyCondition` | api/v1alpha1/function_lifecycle.go:56-88 | the loop computes the summary and sets Ready accordingly |
| `FunctionResource.Function.Decide` | api/v1alpha1/function_lifecycle.go:113-203 | a mark decides one condition and changes nothing else |
| `FunctionResource.Function.RecordHistoryEvent` | api/v1alpha1/function_lifecycle.go:217-234 | only the history changes, by one recorded event |
| `FunctionResource.DropFuncAnnotations` | internal/controller/function_controller.go:175-180 | the loop drops exactly the prefixed keys |
| `FunctionResource.WithoutMeaning` | internal/controller/function_controller.go:164-185 | the prefixed keys go, all others stay with their values, and only if there is a prefixed one is anything to do |
| `FunctionResource.RemoveFuncAnnotations` | internal/controller/function_controller.go:164-185 | against any concurrent writers and failures: at most one write takes effect, it drops exactly the prefixed annotations present at that time, and success without a write means the copy read last had none |
| `FunctionResource.Server.UpdateStatus` | internal/controller/status_tracker.go:52-67 | a status write that takes effect changes the status and the version only, whatever is reported |
| `FunctionResource.Server.Update` | internal/controller/function_controller.go:183-183 | an update that takes effect was based on the current version and leaves the status alone |
| `StatusTracker.Store` | internal/controller/status_tracker.go:52-67 | the retries make at most one effective write, which changes nothing but the status |
| `StatusTracker.Tracker.Flush` | internal/controller/status_tracker.go:45-78 | calculates Ready, writes if something changed, never alters specification or metadata, remembers what was written only on success, and success leaves the stored status equal to the one in memory |
| `StatusTracker.InSync` | internal/controller/status_tracker.go:45-78 | what the tracker remembers is the copy it started from or what is stored, unless a write got lost after one was saved |
| `StatusTracker.SuccessMeansStored` | internal/controller/status_tracker.go:45-78 | a successful flush leaves the stored status equal to the one in memory, without exception for the at most two flushes of a reconcile |
| `FunctionReconciler.RedeployMeaning` | internal/controller/function_controller.go:283-314 | a deployment is due exactly for outdated middleware whose update the function, or else the operator, has enabled |
| `FunctionReconciler.AutoUpdateMeaning` | internal/controller/function_controller.go:473-501 | the function decides if it says anything, else the operator, for each state of its ConfigMap; and which of them is shown |
| `FunctionReconciler.ReadinessMeaning` | internal/controller/function_controller.go:400-403 | what counts as "true" and "false", character by character |
| `FunctionReconciler.ServingMeaning` | internal/controller/function_controller.go:325-398 | what it takes to be ready, case by case, the readiness read character by character |
| `FunctionReconciler.ReadyMeansAllTrue` | api/v1alpha1/function_lifecycle.go:56-88 | Ready is True exactly if the four conditions are |
| `FunctionReconciler.StoredIsConsistent` | internal/controller/status_tracker.go:63-66 | storing a status, with its times cut to seconds, keeps it consistent |
| `FunctionReconciler.PrepareSource` | internal/controller/function_controller.go:188-217 | succeeds exactly if secret, clone and metadata are there, and decides SourceReady with the reason of the step that failed |
| `FunctionReconciler.MarkServiceStatus` | internal/controller/function_controller.go:400-409 | ServiceReady is True exactly if the readiness reads "true" in any case of letters, with a reason of its own for "false" and for anything else |
| `FunctionReconciler.ShowInstance` | internal/controller/function_controller.go:335-358 | the described instance is shown, a pending rebuild is cleared, the available version is left alone |
| `FunctionReconciler.AnnounceRedeploy` | internal/controller/function_controller.go:365-370 | announces the rebuild in at most one stored status, which is consistent |
| `FunctionReconciler.ShowRedeployed` | internal/controller/function_controller.go:381-392 | the redeployed instance is shown, the revision is not refreshed, and the update is recorded in the history |
| `FunctionReconciler.Redeploy` | internal/controller/function_controller.go:365-393 | deploys once; what is shown for each outcome of deployment and description |
| `FunctionReconciler.HandleOutdated` | internal/controller/function_controller.go:348-395 | skips or redeploys, by the auto-update setting |
| `FunctionReconciler.HandleMiddlewareUpdate` | internal/controller/function_controller.go:325-398 | Deployed becomes True exactly if the middleware is current, skipped or redeployed |
| `FunctionReconciler.ReconcileDeployment` | internal/controller/function_controller.go:219-246 | the three conditions are True exactly if the function serves; deploys exactly if it has to |
| `FunctionReconciler.ReconcileCopy` | internal/controller/function_controller.go:128-149 | all four conditions are True exactly if the source was found and the function serves, whatever status was read |
| `FunctionReconciler.Reconcile` | internal/controller/function_controller.go:84-126 | at most one write announces a rebuild, one drops annotations and one stores the final status, Ready=True exactly on evidence; one deployment exactly if due; the status shows the function as it was described last, its origin and who decides about updates; success means the final status is stored; without failures it succeeds |
| `FunctionReconciler.ReconcileAll` | internal/controller/function_controller.go:84-126 | over any sequence of reconciles, each reconcile's writes and verdict answer to its own specification and world, all writes are theirs, and the deployments are exactly those that were due |
| `FunctionReconciler.WritesAreHarmless` | internal/controller/function_controller.go:84-185 | no write of any sequence touches the specification or an annotation without the prefix, and every status stored is consistent |
| `FunctionQueue.PotentialStep` | internal/controller/function_controller.go:111-146 | no step of the operator creates work, and what each action of others, or a failing reconcile with its final flush, may create |
| `FunctionQueue.StartsBounded` | internal/controller/function_controller.go:412-433 | in any run the reconciles are bounded by what was pending plus what edits and failures account for |
| `FunctionQueue.FailureIsTriedAgain` | internal/controller/function_controller.go:113-122 | a reconcile that fails may have flushed its status, and is queued again |
| `FunctionQueue.AloneBounded` | internal/controller/function_controller.go:412-433 | left alone, the operator makes no more reconciles than are pending |
| `FunctionQueue.AnnotationCost` | internal/controller/function_predicate.go:33-47 | from every state, an annotation adds at most one reconcile to the one it asks for and those pending, in every run, exactly if nothing is being reconciled and none is pending |
| `FunctionQueue.FromLagging` | internal/controller/function_controller.go:111-146 | otherwise there is a run that adds two |
| `FunctionQueue.FromRestAtMostTwo` | internal/controller/function_controller.go:111-146 | at rest the annotation is seen before anything starts, so at most two reconciles follow |
| `FunctionQueue.QueueDrains` | internal/controller/function_controller.go:412-433 | left alone, the operator's steps are bounded by a decreasing measure |
| `FunctionQueue.PendingStep` | internal/controller/function_controller.go:164-185 | an annotated Function is always on its way to a reconcile that sees the annotation |
| `FunctionQueue.RestIsClean` | internal/controller/function_controller.go:111-146 | at rest nothing is queued, no prefixed annotation is left, and the current specification and ConfigMap have been read |
| `FunctionQueue.EveryEditIsReconciled` | internal/controller/function_controller.go:412-471 | every edit and every change of the ConfigMap is followed by a reconcile before the operator rests |
| `FunctionQueue.EditPendingStep` | internal/controller/function_controller.go:412-433 | an edit or a change of the ConfigMap is always on its way to a reconcile that can read it |
| `ConsolePlugin.EnsureOwnerRef` | internal/controller/consoleplugin_controller.go:371-384 | the loop replaces the reference with that UID or appends it |
| `ConsolePlugin.OwnerRefEnsured` | internal/controller/consoleplugin_controller.go:371-384 | afterwards it is there, the others stay, and doing it again changes nothing |
| `ConsolePlugin.EnsuredIsStable` | internal/controller/consoleplugin_controller.go:632-777 | ensuring a resource that was ensured changes nothing |
| `ConsolePlugin.AsWantedMeaning` | internal/controller/consoleplugin_controller.go:632-777 | what an ensured resource looks like |
| `ConsolePlugin.AllWantedMeaning` | internal/controller/consoleplugin_controller.go:632-777 | all six resources have their content, the Deployment its arguments, the RoleBinding its role, and each its owner |
| `ConsolePlugin.EnsuredMeaning` | internal/controller/consoleplugin_controller.go:675-705 | an existing resource is adopted unless it is a RoleBinding to another role; a new one has just its content and owner |
| `ConsolePlugin.AdoptedKeepsTheRest` | internal/controller/consoleplugin_controller.go:632-777 | an adopted resource keeps what the operator does not manage and all other owners |
| `ConsolePlugin.PrefixMeaning` | internal/controller/consoleplugin_controller.go:109-132 | the order of the resources is that of their creation |
| `ConsolePlugin.EnabledMeaning` | internal/controller/consoleplugin_controller.go:164-182 | when the plugin is enabled, disabled, or the flag an error |
| `ConsolePlugin.ArgumentsMeaning` | internal/controller/consoleplugin_controller.go:478-486 | what the arguments carry, and where the GitHub URL comes from |
| `ConsolePlugin.CreateKeepsGood` | internal/controller/consoleplugin_controller.go:109-132 | creating or updating a resource after its predecessors keeps the order |
| `ConsolePlugin.DeleteKeepsGood` | internal/controller/consoleplugin_controller.go:135-158 | deleting a resource after its successors keeps the order |
| `ConsolePlugin.ReplacingBreaksOrder` | internal/controller/consoleplugin_controller.go:690-698 | replacing the RoleBinding keeps the order exactly if there is no Service |
| `ConsolePlugin.Ensure` | internal/controller/consoleplugin_controller.go:632-777 | creates or updates one resource, from a possibly outdated read; a failure leaves the old or the new store |
| `ConsolePlugin.EnsureRoleBinding` | internal/controller/consoleplugin_controller.go:675-705 | the same for the RoleBinding, which is replaced if its roleRef differs |
| `ConsolePlugin.EnsureAll` | internal/controller/consoleplugin_controller.go:109-132 | without an error all six are as wanted; nothing changes if they were |
| `ConsolePlugin.RemoveAll` | internal/controller/consoleplugin_controller.go:135-158 | without an error none is left |
| `ConsolePlugin.Reconciler.ResolveOLMOwnership` | internal/controller/consoleplugin_controller.go:243-306 | owners are resolved once, by exactly these answers; a missing binding leaves the owner of the other resources set |
| `ConsolePlugin.Reconciler.Reconcile` | internal/controller/consoleplugin_controller.go:80-162 | without an error exactly all or none, repeated without change; no error without a failing call; the order is kept at every call |
| `ConsolePlugin.ReconcileTwice` | internal/controller/consoleplugin_controller.go:80-162 | the second of two equal reconciles changes nothing |
| `ConsolePlugin.ReconcileAll` | internal/controller/consoleplugin_controller.go:80-162 | from none, every store in between is a prefix of the six, for all answers and failures |

## Left out

- SHA-256: injectivity is proved of the bytes that are hashed.
- Compiling and matching the storage class patterns, and the adapter IDs and topics: a pattern that does not compile makes the reload fail; which adapter a claim uses only decides whether a reconcile gets as far as the bucket.
- The sarama, TLS and SASL configuration: the client configuration is a function of the Secret's data, and making it may fail.
- Parsing JSON: dispatch starts from parsed record headers, and a header that does not parse is dropped.
- HTTP requests still in flight while a server shuts down, and the shutdown of the two watches: the one-runner theorem is about calls of `run`.
- Wall-clock delays: retries and backoff are steps that may happen at any time.
- Namespaces: one namespace is modelled, and a bucket is named like its claim, as the dispatcher assumes.
- Sources that others finalise, and what a source leaves in the bucket of a claim it no longer refers to: the code does not clean that up, and exactness is claimed right after a put only.
- The test-event handler: it sets a condition that nothing else reads, and appears as a change of the object's version.
- StatusTracker.SuccessMeansStored: the clock is taken never to show a whole second when a condition is stamped; otherwise new times could equal stored ones.
- The truncation of times other than the conditions', and the list of conditions that a status update shares with the object it sends: its times may be cut to seconds in memory as well, and then are so in the tracker's copy.
- Message texts: messages hold the error's text without the words around it.
- The registry, role and role-binding set-up before a deployment: together with the deployment they succeed or fail.
- Literal contents of the console plugin's objects: each kind has a fixed content, and the Deployment's depends on the arguments.
- Several Functions in one queue: they do not affect each other's place, so one is modelled.
- Objects the console plugin's resources share with other writers: its theorems are about the operator as the only writer, except for the replaced RoleBinding.
- FunctionResource.RemoveFuncAnnotations: an annotation added after the reconcile read the Function may be removed unprocessed, so that every annotation is applied is not claimed.
- FunctionStatus.ReadySummarizes: the reason of an undecided Ready is the word all undecided conditions share, so which of them it came from cannot be told from the status.
- `function_rbac.go`, the git client and the func command: they are answers of the world a reconcile runs in.
