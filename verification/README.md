# A verified model of the paas operator

The operator maps each of its ten custom resource kinds (PostgresCluster, MariaDBCluster,
ValkeyCluster, RabbitMQCluster, KafkaCluster, MongoDBCluster, GrafanaInstance,
PrometheusInstance, LokiInstance, AlloyInstance) onto one same-named object of a vendor
operator plus a handful of auxiliary objects. One generic engine does this for all of them:
finalizer-gated cleanup, Server-Side Apply of the target, apply-or-prune of the extras,
unsticking of StatefulSet rollouts, status mirroring. This project models that engine, the
adapters behind it and the singleton webhooks, and proves what they guarantee over whole
interleaved runs. `dafny verify dfyconfig.toml` checks it.

## How it is built

| files | content |
|---|---|
| Kinds, Specs, Manifests, Naming | keys, stored specs and the typed write, desired objects, names |
| ServerSideApply, Status, IngressClasses, Pods, Admission | apply with forced ownership; extracting and mirroring status; the default class; stuck pods; the singleton rule |
| Adapters, Footprint, Entries, Delegated | what each of the ten adapters asks for, the keys it manages, when each object is wanted and what is on it, and the names handed to vendor operators |
| Contract, Cluster, Engine | the adapter interface, the API server's store, and Reconcile as a step machine, one step per API call |
| Interleaving, Safety, Orphans, Claims, PatchOnly, Histories, PodHistories, Deletion | any number of workers interleaved with faults and with everybody else; the inductive invariant and what follows over runs |
| Machines, Convergence, Fixpoints | the outcome of one uninterrupted pass, stated object by object, its success and its idempotence |
| Pasts, Traces | history independence: of one pass on two stores, and of whole histories of edits and cut-short passes |
| Teardown | the outcome of one deletion pass, and what a release means over runs |
| Noninterference | a pass interleaved with everybody who keeps off its keys |
| Reconciler, Unsticking | Reconcile as imperative code over a mutable client and resource, proved equal to the step machine wherever a call fails |
| Rollout | a StatefulSet under the OrderedReady policy with the unstick step beside its controller |
| TheFleet, Overtaking | the ten adapters put into the engine: they keep its contract, and the general theorems are stated for them |
| Outcomes | end to end: from the stored spec and the vendor's report to the objects, pods, claims and status after a pass, in terms of the names and fields a user sees |

The engine is generic over `Contract.Adapter`; every theorem about it holds for any lawful
fleet, and `TheFleet.FleetLawful` proves the repository's fleet lawful.

## Assumptions about the environment

* Reads are current, and one worker serves one custom resource key at a time. A failed call,
  or a restart of the process, sends that worker back to its start.
* Only this operator removes its finalizer, and a deletion request is not withdrawn. An update
  or status update is refused unless the stored resource version is the one that was read.
  Every foreign write to a custom resource hands out a newer version and leaves
  `status.ready` and the Ready condition alone.
* Deleting an object removes it, or marks it while it has finalizers; nobody revives a marked
  object. What is claimed of objects is claimed of live ones, present and not marked.
* Others do not apply under this operator's field managers. Apply follows Server-Side Apply
  with forced ownership. Patching an absent StatefulSet is refused, since the patch alone is
  not a valid one. The first apply sets the finalizers a manifest asks for, later ones add.
* Creates pass the singleton webhook one at a time. The API server serves no IngressClass
  without a name, and keys pods by namespace and name.
* The wall clock only matters for a condition's transition time; within one pass it stands.

## What turned out not to hold as documented

* Ready does not mean equal counts (internal/reconciler/reconciler.go:55-57): the adapters that
  count compare with `>=`, the others do not count. The code is followed, and
  `Status.CountRuleExactly` says kind by kind when the documented rule holds.
* Adding or removing the finalizer is a typed update, and that rewrites the spec. It preserves
  what the adapters read if and only if no field listed in `Specs.LosesZero` holds an explicit
  zero: monitoring switched off is switched back on; `Specs.MonitoringSwitchedBackOn`.
* Equal current and update revisions do not always mean that no stale pod is left. They do,
  exactly as long as no template change goes back to the current revision while pods of
  another are left; `Rollout.GuardExactly`, `Rollout.RevertedTemplateHidesStuckPod`. What
  deadlock that leaves, engine included, is `Rollout.HardDeadlockExactly`.
* Pods are deleted by name after a list. Whatever is deleted, the pod of that name was stuck
  when this very pass listed the pods (`PodHistories.DeletedPodsWereStuck`); by the time it is
  deleted it may be another, or Ready. From a worker about to list, such a run exists if and
  only if the list picks a pod at all (`PodHistories.OvertakenExactly`), and the first such
  state is six calls from a fresh cluster (`Overtaking.OvertakenFromTheStart`).
* Generated names are said to be collision-free (internal/prometheus/prometheus.go:270-278,
  internal/rabbitmq/rabbitmq.go:218-224). They are not: `Delegated.CommonNameExactly` lists all
  the collisions. One is the external Service of a PostgresCluster, which a ValkeyCluster of the
  same name prunes or takes over (`TheFleet.ValkeyTakesExternalService`).

## Model

| member | source | states |
|---|---|---|
| Reconciler.GenericReconciler.Reconcile | internal/reconciler/reconciler.go:219-334 | run on any store, with the connection failing after any number of calls, Reconcile leaves the store and returns the verdict of the step machine that all other theorems are about |
| Reconciler.GenericReconciler.CleanUp | internal/reconciler/reconciler.go:235-267 | the deletion path: target, then extras, then volume claims, then the finalizer, stopping at the first failure |
| Reconciler.GenericReconciler.ApplyAll | internal/reconciler/reconciler.go:283-325 | the normal path, with the class resolved in memory and the manifests built from that copy |
| Reconciler.GenericReconciler.MirrorStatus | internal/reconciler/reconciler.go:319-325 | mirrors the status of the applied target and writes status only, although the in-memory spec may differ from the stored one |
| Reconciler.GenericReconciler.ApplyExtraResources | internal/reconciler/reconciler.go:378-411 | the loop over extras: each is applied or pruned in order, up to the first failure |
| Reconciler.GenericReconciler.ApplyExtra | internal/reconciler/reconciler.go:384-405 | look before a patch, skip an absent patched object, unstick after a patch |
| Reconciler.GenericReconciler.ApplyTarget | internal/reconciler/reconciler.go:299-304 | the manifest is built from the resource in memory, and the merged object comes back |
| Reconciler.GenericReconciler.DeleteExtraResources | internal/reconciler/reconciler.go:420-434 | every extra but the patched ones is deleted, in order, up to the first failure; after success the objects are those with all of them deleted |
| Reconciler.GenericReconciler.DeletePVCs | internal/reconciler/reconciler.go:441-451 | no call at all for an empty selector, otherwise every claim of the namespace that carries the labels is deleted and nothing else changes |
| Reconciler.GenericReconciler.DeleteTarget | internal/reconciler/reconciler.go:361-374 | gone or marked afterwards, not-found is success |
| Reconciler.GenericReconciler.DefaultIngressClass | internal/reconciler/reconciler.go:461-476 | in memory only: if an Ingress is requested without a class and exactly one class is annotated as default, that class is set; otherwise the spec is as it was |
| Reconciler.GenericReconciler.UnstickStatefulSetRollout | internal/reconciler/reconciler.go:517-562 | for every number of calls that succeed: which prefix of the stuck pods is deleted, and that nothing else changes; nothing at all while the revisions are equal or one of update revision and selector is missing |
| Reconciler.GenericReconciler.DeleteStuckPods | internal/reconciler/reconciler.go:552-560 | the loop over the listed pods deletes the stuck ones in list order until a call fails |
| Unsticking.DeletesOnlyStuck | internal/reconciler/reconciler.go:533-562 | stopped anywhere it has deleted only pods that match the selector, are off the update revision and not Ready; undisturbed it has deleted all of those |
| Unsticking.RetryFinishes | internal/reconciler/reconciler.go:552-560 | a failed call and a retry leave exactly what one undisturbed call leaves |
| IngressClasses.ResolveDefaultIngressClass | internal/reconciler/reconciler.go:482-498 | the loop with its early exit computes the name of the only default class, or nothing |
| IngressClasses.ResolvedExactly | internal/reconciler/reconciler.go:478-498 | a name is resolved if and only if exactly one listed class is annotated as default and carries it |
| IngressClasses.ListOrderIrrelevant | internal/reconciler/reconciler.go:482-498 | the result does not depend on the order in which the classes are listed |
| Pods.IsPodReady | internal/reconciler/reconciler.go:564-572 | the first Ready condition decides, without one a pod is not ready |
| Pods.ReadyExactly | internal/reconciler/reconciler.go:564-572 | ready means: at some index there is a Ready condition that is True, and none before it |
| Pods.VictimsAreStuck | internal/reconciler/reconciler.go:552-558 | a pod is deleted if and only if it is listed, off the update revision and not Ready |
| Admission.RejectIfSiblingExists | internal/webhook/v1alpha1/singleton.go:34-53 | rejects if and only if the list fails or holds another name |
| Admission.AdmissionKeepsSingletons | internal/webhook/v1alpha1/singleton.go:26-53 | serialized creates keep at most one resource of the kind per namespace |
| Orphans.NoOrphansEver | internal/reconciler/reconciler.go:235-317 | over every run, each live object this operator has written, other than patched StatefulSets, has a stored resource with the finalizer that owns its key |
| Orphans.InvPreserved | internal/reconciler/reconciler.go:219-334 | the inductive invariant behind it, every event: whose finalizer is held, which keys a deleting worker is already past, what a read version says of the stored resource |
| Orphans.NoOrphansPreserved | internal/reconciler/reconciler.go:235-317 | every event keeps every written object covered by a resource whose worker is not yet past it, also where two kinds share a key |
| Orphans.PastGrows | internal/reconciler/reconciler.go:246-254 | a deleting worker is past a key only after it has deleted it in this pass |
| Orphans.SingletonsPreserved | internal/webhook/v1alpha1/singleton.go:34-53 | every event keeps at most one stored resource of each singleton kind per namespace |
| Safety.WorkerInvPreserved | internal/reconciler/reconciler.go:219-334 | every event, own, other worker's, fault or foreign, keeps what each worker may rely on |
| Claims.ClaimsEver | internal/reconciler/reconciler.go:352-359 | over every run, what all manifests promise of the fields they set holds of every field this operator owns on any object |
| PatchOnly.StatefulSetFrame | internal/reconciler/reconciler.go:383-405 | no call creates, deletes or marks a StatefulSet, or changes anything on it but its fsGroup, which it can only set to 10001 |
| PatchOnly.FsGroupStays | internal/loki/loki.go:115-149 | over every run in which vendors leave the security context alone, a set fsGroup stays set, through failures, edits and deletions |
| PatchOnly.WritesStatefulSet | internal/reconciler/reconciler.go:425-428 | the only request any worker ever sends about a StatefulSet is the fsGroup patch |
| Histories.StatusFromAppliedTarget | internal/reconciler/reconciler.go:299-325 | over every run, a status write stores, whole, the status mirrored from the target as the apply of this very pass returned it, and keeps spec and finalizers; Ready entry and status.ready agree, other entries stay |
| Histories.StatusSoundEver | internal/cnpg/cnpg.go:257-285 | in every reachable state condition types are unique and the Ready entry says status.ready |
| Histories.OneReadyEverAfter | internal/grafana/grafana.go:381-408 | over every run, from the first status write on and while the resource is stored, there is exactly one Ready entry, and it says status.ready |
| Histories.SpecOverRun | internal/reconciler/reconciler.go:260-281 | over every run without user edits the stored spec is the original or its one typed round trip |
| PodHistories.DeletedPodsWereStuck | internal/reconciler/reconciler.go:533-560 | over every run, only the unstick loop removes a pod, and whatever pod it removes, the one pod of that name when this very pass listed was of the selector, off the update revision and not Ready |
| PodHistories.OvertakenExactly | internal/reconciler/reconciler.go:548-560 | from a worker about to list, some run has it delete a pod that is Ready and on the update revision by then, if and only if the list picks a pod at all |
| PodHistories.RecreatedPodDeleted | internal/reconciler/reconciler.go:552-560 | the replacement of one listed pod, before its deletion, by a Ready one of the update revision is such a run |
| Overtaking.OvertakenFromTheStart | internal/reconciler/reconciler.go:378-405 | a run of the real adapters from a cluster this operator has never written to gets there |
| Deletion.DeletionCompletes | internal/reconciler/reconciler.go:235-267 | in any interleaved run, a resource marked for deletion is released before its worker has made more calls than one pass from where it stands and one per failure or refused write |
| Deletion.OwnCallCost | internal/reconciler/reconciler.go:361-374 | each call that is not refused brings the release nearer by the termination measure, from every point of every pass |
| Convergence.PassOutcome | internal/reconciler/reconciler.go:283-325 | a successful undisturbed pass leaves the declared outcome: each object applied, skipped or pruned, exactly the stuck pods gone, the status mirrored, all else equal |
| Convergence.EveryCallKeeps | internal/reconciler/reconciler.go:378-411 | no call of an undisturbed pass is refused, and each leads to the next one of the plan |
| Fixpoints.CleanPassSucceeds | internal/reconciler/reconciler.go:283-325 | with enough successful calls, counted from extras and pods, a pass succeeds from any store |
| Pasts.HistoryIndependence | internal/reconciler/reconciler.go:299-317 | two stores with one spec that look the same to everybody else on what is to be applied, finalizers of the manifest aside, are, after one successful pass each, equal on the resource's objects, with exactly the manifests owned and nothing unrequested live |
| Pasts.AsIfNeverApplied | internal/reconciler/reconciler.go:352-411 | a successful pass leaves what a first one leaves on the store without this manager's claims, finalizers and objects |
| Pasts.CutShort | internal/reconciler/reconciler.go:378-411 | a pass cut short anywhere leaves each of its objects untouched or as planned, and has deleted stuck pods only |
| Traces.HistoryErased | internal/reconciler/reconciler.go:299-317 | from a store without the resource's own objects, any list of spec edits and passes cut short anywhere, then one successful pass: all foreign objects and the pods are as the first pass over the last spec would have left them |
| TheFleet.FleetHistoryErased | internal/psmdb/psmdb.go:296-300 | the same for the ten adapters, the finalizer of MongoDB's target included |
| Noninterference.InterleavedAsAlone | internal/reconciler/reconciler.go:283-325 | a pass interleaved with workers that share no key and with foreign steps that leave its part alone succeeds, and leaves its resource and objects as the undisturbed pass does |
| TheFleet.WhoIsApart | internal/prometheus/prometheus.go:270-278 | two resources share no key, exactly, unless they are of one name and both emit a dashboard or both a PodMonitor |
| Fixpoints.SecondPassChangesNothing | internal/reconciler/reconciler.go:283-325 | after a successful pass another at any later time, complete or cut short anywhere, leaves the whole store equal, versions and transition times included |
| Fixpoints.PassFrame | internal/reconciler/reconciler.go:348-359 | a pass keeps the target's status and every field only the vendor owns, and everything outside the resource's own keys |
| Fixpoints.PassDeletesStuckPods | internal/reconciler/reconciler.go:507-562 | a successful pass deletes precisely the stuck pods of its patched StatefulSets with an unfinished rollout |
| ServerSideApply.OwnsExactlyApplied | internal/reconciler/reconciler.go:349-359 | after an apply the manager owns exactly the manifest, whatever was there |
| ServerSideApply.TakesByForce | internal/reconciler/reconciler.go:352-359 | the applied value stands, and only who had this very value keeps a claim |
| ServerSideApply.ApplyForgets | internal/reconciler/reconciler.go:349-359 | the result of an apply depends on what others hold and on the manifest only |
| ServerSideApply.HistoryForgotten | internal/reconciler/reconciler.go:349-359 | any sequence of earlier applies that contested nobody is forgotten by the next one |
| ServerSideApply.MergeIdempotent | internal/reconciler/reconciler.go:349-359 | applying the same manifest again changes nothing |
| Rollout.RolloutFinishes | internal/reconciler/reconciler.go:517-562 | controller, pods and engine together make at most four moves a slot and one, and stop only with every pod updated and Ready and the revision promoted |
| Rollout.NeverStuck | internal/reconciler/reconciler.go:521-533 | short of that some move of the controller, a healing pod or the engine is possible |
| Rollout.DeadlockExactly | internal/reconciler/reconciler.go:521-533 | without the engine the rollout is stuck if and only if the lowest slot that is not Ready holds a stale pod and no updated pod is still to become Ready |
| Rollout.DeadlockExists | internal/reconciler/reconciler.go:517-528 | one pod that crashed under the old template is such a state, and the engine's step is possible in it |
| Rollout.GuardExactly | internal/reconciler/reconciler.go:538-542 | every move keeps "equal revisions mean no stale pod", a template change exactly when it does not go back to the current revision while pods of another are left |
| Rollout.HardDeadlockExactly | internal/reconciler/reconciler.go:538-542 | whatever templates were patched in: with the engine too, the rollout is stuck if and only if the revisions are equal and it is stuck without the engine |
| Rollout.GuardHolds | internal/reconciler/reconciler.go:538-542 | over every run whose template changes do not go back to the current revision over pods of another, the early return skips no pod that needs deleting |
| Rollout.RevertedTemplateHidesStuckPod | internal/reconciler/reconciler.go:538-542 | the guard fails on a template put back in the middle of a rollout |
| Unsticking.GuardLeavesAlone | internal/reconciler/reconciler.go:533-546 | with equal revisions, without an update revision or without a selector, no number of calls deletes a pod |
| Unsticking.UnstickIsTheEngines | internal/reconciler/reconciler.go:538-560 | in a store that holds the rollout's pods and revisions, the unstick move is possible on exactly the pods the engine deletes, its guard included |
| Convergence.HoldsUpExactly | internal/reconciler/reconciler.go:538-558 | the engine's tests, on the status strings, labels and conditions themselves: revisions there and different, selector not empty and matched, another hash, no true Ready condition |
| Footprint.FootprintStable | internal/reconciler/reconciler.go:125-135 | whatever an adapter listed under a past spec it lists, at the same place, under every other |
| Footprint.ExtrasHaveFixedIds | internal/strimzi/strimzi.go:210-312 | each adapter's list is one fixed list of object kinds, suffixes and patch flags |
| Footprint.CollisionExactly | internal/prometheus/prometheus.go:270-278 | over all names, two resources manage a common object if and only if they share name and namespace, differ in kind, and both emit a dashboard or both a PodMonitor |
| Footprint.DifferentNamesDisjoint | internal/rabbitmq/rabbitmq.go:218-227 | resources with different names manage no common object, for every pair of kinds |
| Delegated.CommonNameExactly | internal/cnpg/cnpg.go:145-166 | over all names, managed ones and those handed to vendor operators: two resources name one object if and only if they share name and namespace, differ in kind, and it is a dashboard or PodMonitor both emit or the external Service of a PostgresCluster and a ValkeyCluster |
| TheFleet.ValkeyTakesExternalService | internal/valkey/valkey.go:205-234 | after a successful pass of a ValkeyCluster that Service is not live, if it is not exposed, and its own otherwise |
| Footprint.IdsWellNamed | internal/loki/loki.go:165-226 | no two keys of one resource coincide, none is a target, and exactly the StatefulSets are patched only |
| Adapters.FieldManagersDistinct | internal/loki/loki.go:62 | no two kinds apply under one field manager, so ownership by kind is ownership by manager |
| Adapters.BuildLokiExtras | internal/loki/loki.go:199-226 | the loop over the components yields the list the footprint theorems are about |
| Adapters.BuildValkeyExtras | internal/valkey/valkey.go:205-274 | appending across the two toggles, with the early return, yields the list that Entries.ExtrasMeet says when which object is wanted in |
| Entries.ExtrasMeet | internal/strimzi/strimzi.go:210-312 | for every spec, each listed object is desired exactly when the stored field says so, carries managed-by and owner, no finalizer, and the selectors, references and fields meant for it |
| Entries.HasExactly | internal/rabbitmq/rabbitmq.go:217-280 | which objects each kind has, by literal suffix, both ways |
| Entries.TargetCarries | internal/cnpg/cnpg.go:111-190 | a field the spec sets, of those a target is for, is on the target as it is in the spec |
| Adapters.SelectorMatchesOwnNamespaceOnly | internal/grafana/grafana.go:134-138 | every dashboard or datasource any adapter builds for a namespace selects that namespace's Grafana and no other |
| TheFleet.FleetLawful | internal/reconciler/reconciler.go:77-187 | all ten adapters keep the contract the engine relies on: always list every extra, patch the fsGroup only, mirror soundly |
| TheFleet.AtMostOneLiveTarget | internal/webhook/v1alpha1/singleton.go:26-53 | over every run, a namespace never holds two live managed Grafanas, Prometheuses or LokiStacks, not even of a predecessor and its successor |
| TheFleet.LiveTargetHasOwner | internal/reconciler/reconciler.go:235-267 | over every run, a resource leaves the store only after its target is gone |
| TheFleet.SelectorsStayInNamespace | internal/grafana/grafana.go:271-275 | in every reachable state a managed selector matches a managed Grafana's scope label exactly within one namespace |
| TheFleet.OthersUntouched | internal/reconciler/reconciler.go:299-317 | in every reachable state a call for one resource changes no object another resource manages, but for a dashboard or PodMonitor of one of the same name, and no other custom resource |
| TheFleet.ReleasedLeavesOnlyShared | internal/reconciler/reconciler.go:245-267 | after the finalizer is off nothing written for the resource is live but a dashboard or PodMonitor that a same-named resource of another kind still owns |
| TheFleet.PvcsExactly | internal/loki/loki.go:228-243 | in every reachable state only the deletion of a LokiInstance deletes volume claims, and exactly those with its three labels in its namespace |
| Teardown.TeardownOutcome | internal/reconciler/reconciler.go:235-267 | a successful undisturbed deletion pass has deleted target, extras and claims and taken the finalizer off, and changed nothing else |
| Teardown.NothingOwnedLives | internal/reconciler/reconciler.go:245-267 | object by object: after that pass nothing the resource owns is live, every other object is as it was |
| Teardown.ClaimsGoFirst | internal/reconciler/reconciler.go:246-264 | over every run, a worker about to take the finalizer off has, earlier in this very pass, left no unmarked claim that its selector matches |
| Outcomes.ClaimsGone | internal/reconciler/reconciler.go:441-451 | after a successful deletion pass of a LokiInstance the claims with its three labels in its namespace are gone, or marked if held, and all others are equal; other kinds touch none |
| Outcomes.ClaimsGoneBeforeRelease | internal/loki/loki.go:228-243 | over every run, the call that takes a LokiInstance's finalizer off follows, in its pass, one that left no unmarked claim with the three labels |
| Outcomes.IngressServed | internal/grafana/grafana.go:196-225 | from the stored ingress block to the applied Grafana or Ingress: the block as stored, with the cluster's only default class if it names none and there is one |
| Outcomes.ExtraAsWanted | internal/valkey/valkey.go:205-274 | after a successful pass each auxiliary object is there, marked and with its contents, if the stored toggle wants it, and not live otherwise |
| Outcomes.TargetAsAsked | internal/psmdb/psmdb.go:284-304 | after a successful pass the target is there, marked, with every set field it is for as stored, and MongoDB's with its finalizer |
| Outcomes.FsGroupPatched | internal/loki/loki.go:199-226 | after a successful pass each of the three named StatefulSets that exists has fsGroup 10001, and none is created |
| Outcomes.PodsUnstuck | internal/reconciler/reconciler.go:517-562 | after a successful pass exactly the pods that hold up one of Loki's three rollouts are gone, none for any other kind |
| Outcomes.StatusReports | internal/rabbitmq/rabbitmq.go:289-331 | after a successful pass the stored status says, kind by kind and key by key, what the vendor's untouched report says, with one Ready entry for the generation read |
| Outcomes.RabbitMQCountsAsked | internal/rabbitmq/rabbitmq.go:289-295 | RabbitMQ's stored count is the one the stored spec asks for |
| Outcomes.FinalizerAdded | internal/reconciler/reconciler.go:275-281 | the pass that adds the finalizer changes nothing else but the spec, through the typed round trip; monitoring is on after it |
| TheFleet.ClassNeverStored | internal/reconciler/reconciler.go:156-187 | over every run without user edits the stored ingress block is the user's: the resolved class is never written |
| TheFleet.DefaultingOnce | internal/prometheus/prometheus.go:124-133 | defaulting sets the class and nothing else, and what it set is explicit from then on |
| Specs.TypedWritePreserves | internal/reconciler/reconciler.go:260-281 | on every admitted spec the finalizer update preserves what adapters read if and only if none of the listed fields holds an explicit zero |
| Specs.TypedWriteIdempotent | internal/reconciler/reconciler.go:275-281 | a second typed write changes nothing |
| Specs.FlipsExactly | api/v1alpha1/postgrescluster_types.go:92-108 | for any schema, a field changes exactly when an elided zero meets a default other than it |
| Specs.LosesZeroTable | api/v1alpha1/mongodbcluster_types.go:45-87 | the fields on which this can happen, kind by kind |
| Specs.MonitoringSwitchedBackOn | internal/controller/kafkacluster_controller_test.go:174-183 | a cluster created with monitoring off has it switched on by the finalizer update |
| Specs.AbsentFieldsFilled | api/v1alpha1/postgrescluster_types.go:34-108 | a field a stored spec leaves out has, after a typed write, the default of its kind |
| Status.ScanConditions | internal/mariadb/mariadb.go:249-288 | the loop over conditions reads phase and readiness off the first condition of the type |
| Status.ReadyByCounts | internal/cnpg/cnpg.go:232-253 | where counts decide, ready if and only if at least one unit is observed and no fewer are ready |
| Status.ReadyWithoutEqualCounts | internal/reconciler/reconciler.go:55-57 | more ready units than observed ones is ready as well |
| Status.CountRuleExactly | internal/reconciler/reconciler.go:55-62 | for all ten kinds, when the documented rule holds: unless more units are ready than a positive number observed; always; only while not ready; when stage and counts agree |
| Status.FirstConditionExactly | internal/loki/loki.go:286-310 | the condition that decides is the one at the lowest index that is of the type |
| Status.ConditionSet | internal/cnpg/cnpg.go:264-276 | setting a condition replaces the one of its type, moves the transition time only with the status, and leaves the others |
| Status.StatusMirrored | internal/grafana/grafana.go:381-408 | one mirroring, whole: verdict and phase; each count where the kind keeps it; one Ready entry with this generation, reason and summary; the other entries untouched |
| Status.Int32Wraps | internal/cnpg/cnpg.go:242-245 | the int32 conversion is the identity in range and wraps outside it |
| Status.MirroringIdempotent | internal/mariadb/mariadb.go:292-320 | mirroring the same status later changes nothing, not even the transition time |

## Left out

- Manager start-up, flags, leader election, metrics, logging, events and requeue intervals: no effect on the state the theorems speak about.
- Manifest bodies (images, ports, URLs, dashboard JSON): a desired object keeps labels, selectors, finalizers, the fsGroup and one path per custom resource field it copies. Manifests are values, so filling a map step by step and aliasing inside it are not captured.
- Annotations on Services and Ingresses (`Expose`, `IngressField`) travel as one opaque value.
- Cache staleness: reads are current.
- Reconciler.GenericReconciler.Reconcile: a failing call there has no effect. A call that takes effect and loses its reply is covered by the interleaved runs, as a call followed by a fault.
- Traces.HistoryErased: nobody else writes during the history; what others hold on an object when the pass runs is the subject of Pasts.HistoryIndependence. A vendor's value that an earlier spec forced out, and a later one no longer sets, does not come back.
- Concurrent creates: the webhook lists before the create is stored, so the singleton rule is claimed for serialized creates only.
- Rollout: one StatefulSet with a fixed number of slots; scaling, and updated pods that stop being Ready, are not part of this model. A deleted pod is gone at once.
- Garbage collection by owner references, and the objects vendor operators name and create themselves.
- internal/alloy/alloy.go and internal/ingress/ingress.go beyond the status scan, the copied fields and the keys: no further state or branching.
- RBAC manifests, CRD YAML beyond defaults and zero values, samples and scripts.
