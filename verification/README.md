# Higress operator: a verified model

The operator keeps two custom resources in agreement with a Kubernetes cluster. A `HigressGateway`
is turned into a service account, RBAC objects, a config map, a deployment, one of two autoscalers
(a native HPA or a KEDA ScaledObject) and a service, and gets its outcome written into its status. A
`HigressController` is turned into CRDs, a deployment and a service. The reconcile loop is a
program of some two dozen API calls, any of which may fail, and is run again until it succeeds, while
users, autoscalers and administrators change the cluster between any two of those calls.

How the model is laid out:

- `Values`, `GatewaySpec`, `Conditions`, `MeshConfigMap`, `Autoscalers`, `Subjects`, `Objects`: the
  resources, the pure decisions made from them, and what initialising and mutating each object does.
  Builders that the source writes as loops over mutable maps and lists are methods on classes here,
  each proved against the function the theorems use; `GatewayDeployment` holds those of the deployment.
- `ApiServer`: the store, one object and one resource version per key, and calls that are served,
  lost on the way there, or served with their reply lost.
- `Protocol`: the gateway's reconcile with an explicit program counter, one API call a step.
  `Reconciler` is the same loop in the source's form, straight-line code with early returns;
  every method is proved to be a run of the protocol.
- `Interleavings`, `Safety`: any number of gateways, any interleaving with each other and with outside
  changes, any faults. What is proved here holds in every reachable state.
- `Convergence`, `Reconciliation`, `Success`: one gateway without interference. `Convergence.GoalAt` says,
  without reference to the order of the program, what each object should become; no step moves that
  goal, and a reconcile without failures arrives at it.
- `Delivery`: what such a reconcile leaves in the cluster, object by object and field by field, read off the spec
  alone: the functions the other theorems use for modes, verdicts, templates, mesh data and autoscalers are each
  proved (`...ByField`) to do what the fields say.
- `Together`, `Neighbours`: several gateways at rest. Those of different namespaces, reconciled call by call in
  any interleaving; and two of one namespace, which share objects they may disagree about.
- `CreateOrUpdate`, `DeepCopy`, `HpaConversions`: the write primitive for any store and callback, status changes
  on a heap with pointers, and the conversions between HPA versions.
- `ControllerDeployment`, `ControllerService`, `ControllerCleanup`, `Crds`: the HigressController's side.

What the environment is taken to do. Reads at the start of a reconcile are current; reconciles of one
gateway are serial. A missing CRD has no objects, so removing KEDA's removes its ScaledObjects. Only the
operator creates an HPA or a ScaledObject under a gateway's name; others may edit and delete them. Users
neither add nor remove this operator's finalizer, keep a gateway's service-account name, and give no two
gateways the same pair of service-account name and namespace (`Reconciliation.DeletionTakesExactly` says what
happens otherwise). Others may delete a shared binding and edit its list, dropping the operator's subjects too, but
they do not add those, and write no duplicates.

Findings. Some of what one would expect of the code is false, and is stated with the exact condition:

- With two or more user environment variables a settled gateway is not left alone: map iteration gives
  the deployment another order now and then (`Reconciliation.QuietExactly`).
- A deletion is stuck while the cluster role binding is missing (`Reconciliation.DeletionCompletesExactly`), and a
  reconcile writes into a nil label map if a network gateway has no labels (`Success.ReconcileSucceedsExactly`).
- Adding a subject and then removing it does not restore a list that held another kind of subject of
  that name and namespace (`Subjects.AddThenRemove`).
- A HigressController deleted while RBAC or its service account is switched off leaves its subject in
  the binding (`ControllerCleanup.ReleaseStrandsExactly`).
- A HigressController whose bundled Istio is switched on later keeps its pilot container, which goes on mounting
  a volume the pod has lost (`ControllerDeployment.TurningIstioOnStrandsPilot`).
- Completing a service by port name can use one port twice under one protocol (`ControllerService.SlotsStayDistinctExactly`).
- Two gateways of one namespace are never at rest together unless they agree on config map and service
  (`Neighbours.NeighboursRestExactly`).
- One pass of the config-map builder stores the discovery address it found, not the one it computes; only a
  second pass stores the right one (`MeshConfigMap.UpdateGatewayConfigMapSpec`).

## Model

| member | source | states |
|---|---|---|
| `Safety.AutoscalersNeverMeet` | internal/controller/higressgateway/higressgateway_controller.go:154-236 | at every point of every run, with faults, spec edits in mid-reconcile and the KEDA CRD coming and going, a gateway never has an HPA and a ScaledObject at once |
| `Safety.FinalizerGuardsBinding` | internal/controller/higressgateway/higressgateway_controller.go:116-152 | at every point of every run, a gateway whose subject is in its cluster role binding still exists and carries the finalizer; once it is gone its subject is gone |
| `Safety.NoSubjectIsLost` | internal/controller/higressgateway/rbac.go:58-78 | through any interleaving of other gateways' reads and writes, and through unbindings of its own that are lost or refused, a bound subject stays bound until its own gateway's unbinding gets through or an outsider drops it |
| `Safety.OnlyItsOwnerMovesASubject` | internal/controller/higressgateway/higressgateway_controller.go:352-376 | at any event a bound subject leaves the binding if and only if its own gateway's unbinding gets through or an outsider drops it, and one enters only by its own running reconcile while the finalizer is on the gateway |
| `Safety.OthersKeepTheirPlaces` | internal/controller/higressgateway/rbac.go:71-77 | one step never reorders, drops or duplicates the subjects of other accounts and touches no other binding, however the list changed since it was read |
| `Safety.ReplicasHaveOneOwner` | internal/controller/higressgateway/deployment.go:36-43 | a step changes a replica count only for a valid gateway's own deployment and only to the spec's count, and a count that is set only if autoscaling was found disabled; no step deletes a deployment |
| `Safety.ReplicasStayOverRuns` | internal/controller/higressgateway/deployment.go:160-165 | over whole runs a set count that no outsider writes stays put as long as no reconcile finds autoscaling disabled |
| `Safety.StatusWritesAgree` | internal/controller/higressgateway/higressgateway_controller.go:155-263 | every status a step stores shows the verdict of the spec it read, for that generation and mode, keeps foreign conditions, and agrees with which autoscalers are then in the store; every stored status is untouched or one of the five profiles |
| `Safety.AutoscalerWritesAreWellFormed` | internal/controller/higressgateway/hpa.go:44-79 | every HPA or ScaledObject sent to the server is the gateway's own, targets its own deployment, has uncrossed bounds and something to measure, and carries the bounds, CPU target, polling, cooldown, idle count and triggers of the gateway read, each in its own field |
| `Safety.InvAlways` | internal/controller/higressgateway/higressgateway_controller.go:99-263 | the invariant behind these, kept by every event of every run |
| `Safety.DeletionsEndClean` | internal/controller/higressgateway/higressgateway_controller.go:116-130 | whatever calls fail and whatever happens outside, once a reconcile is on its way through a deletion it ends without an error only if the gateway carries no finalizer and its subject is not in the binding; while the finalizer is on, it ends with one |
| `Interleavings.ActKeepsInv` | internal/controller/higressgateway/higressgateway_controller.go:99-263 | one API call of one reconcile keeps the invariant of all gateways |
| `Interleavings.EnvironmentKeepsInv` | internal/controller/higressgateway/higressgateway_controller.go:99-263 | so does anything users, autoscalers and administrators do in between |
| `Interleavings.BindingStep` | internal/controller/higressgateway/rbac.go:58-78 | against the list as it is at the moment of the write, a step is no change, adding the own subject, or removing it |
| `Interleavings.PlanIsSafe` | internal/controller/higressgateway/higressgateway_controller.go:154-236 | from any state without both autoscalers, no sequence of successes and failures of the planned calls brings both about or ends in a status that contradicts them |
| `Reconciliation.RetriesConverge` | internal/controller/higressgateway/higressgateway_controller.go:99-263 | any number of reconciles cut short at any call, with or without effect, and then a complete one leave every object as one uninterrupted reconcile would, up to versions, transition times and environment order |
| `Reconciliation.ReconcileReachesTheGoal` | internal/controller/higressgateway/higressgateway_controller.go:172-262 | a reconcile without failures brings every object of the gateway to its goal, leaves all others alone, and ends at rest |
| `Reconciliation.RunKeepsGoal` | internal/controller/higressgateway/higressgateway_controller.go:99-263 | no prefix of a reconcile, whatever its faults, moves the goal of any object |
| `Reconciliation.StatusTellsTheTruth` | internal/controller/higressgateway/higressgateway_controller.go:188-263 | after a reconcile without failures the status shows the verdict, an HPA exists exactly for the HPA profile and a ScaledObject exactly for the KEDA profile, and a gateway reported deployed has its account, config map, deployment, service and, if RBAC is on, its subject |
| `Delivery.ResourcesAreDelivered` | internal/controller/higressgateway/higressgateway_controller.go:172-240 | after a reconcile without failures an acceptable gateway has its config map, deployment and service, and unless a switch is off its roles and bindings, under the right names and with every modelled field read off the spec: labels, environment, image, replicas, ports, rules, subject, mesh settings; what the user has not set is as it was |
| `Delivery.AutoscalersAreDelivered` | internal/controller/higressgateway/higressgateway_controller.go:195-236 | an HPA exists afterwards if and only if the spec is acceptable and asks for one by name or with an unset mode and no KEDA config; a ScaledObject if and only if it asks for KEDA by name or with an unset mode and a KEDA config and the CRD is there; each with the bounds, targets and settings asked for |
| `Delivery.StatusIsDelivered` | internal/controller/higressgateway/higressgateway_controller.go:188-263 | and the status says, field by field, what came of it: mode, deployed, truth and reason of all four conditions; with autoscaling asked for, AutoscalingReady is true if and only if one of the autoscalers exists |
| `Delivery.AccountIsDelivered` | internal/controller/higressgateway/higressgateway_controller.go:277-293 | the service account exists under the configured name, the gateway's or the operator's, created with its annotations or left as it was |
| `Delivery.GatewayIsAdopted` | internal/controller/higressgateway/higressgateway_controller.go:143-152 | the gateway carries the finalizer besides those it had, and its spec gets the defaults exactly when the finalizer was missing |
| `Delivery.RejectionSparesTheRest` | internal/controller/higressgateway/higressgateway_controller.go:155-170 | a rejected spec costs a gateway its autoscalers, and every other object stays |
| `Delivery.DepartureIsDelivered` | internal/controller/higressgateway/higressgateway_controller.go:116-130 | a deletion takes exactly the gateway's account in its namespace out of the binding and keeps the role; a gateway held by others keeps their finalizers, labels and annotations |
| `Delivery.DepartureSparesTheRest` | internal/controller/higressgateway/higressgateway_controller.go:352-376 | and every other object stays |
| `Reconciliation.ReconcilingGoesQuiet` | internal/controller/higressgateway/higressgateway_controller.go:172-262 | after one reconcile without failures and with at most one user variable, later reconciles change nothing and send neither update nor delete nor status patch, whatever fails in them; the one create they still send, of the service account, is for an account that is there |
| `Reconciliation.QuietExactly` | internal/controller/higressgateway/deployment.go:314-316 | in that sense a valid gateway at rest stays quiet if and only if it sets at most one environment variable |
| `Reconciliation.DeletionCompletesExactly` | internal/controller/higressgateway/higressgateway_controller.go:352-376 | a deletion takes away finalizer and subject if and only if the binding exists, and the gateway with them unless other finalizers hold it; otherwise nothing changes |
| `Reconciliation.DeletionTakesExactly` | internal/controller/higressgateway/higressgateway_controller.go:364-370 | finalising one gateway unbinds another if and only if both share service-account name and namespace |
| `Success.ReconcileSucceedsExactly` | internal/controller/higressgateway/higressgateway_controller.go:99-263 | a reconcile whose calls all go through returns without error if and only if it writes no label into a nil map and has no deletion to finalise without a binding |
| `Together.GatewaysSettleTogether` | internal/controller/higressgateway/higressgateway_controller.go:99-263 | with gateways of pairwise different namespaces reconciled at once, call by call in any order: whenever a reconcile of one returns without error, whichever calls failed but for its own namespace lookups, that gateway is at rest, and it stays so through all further reconciles of all of them, whatever fails in those |
| `Together.FailingMeansOvertaken` | internal/controller/higressgateway/higressgateway_controller.go:295-332 | in such a run an answered call ends a reconcile with an error only if another gateway was faster at a shared cluster object, or the service would panic |
| `Together.StepIsElsewhere` | internal/controller/higressgateway/rbac.go:30-85 | one call for a gateway touches no object of another namespace, and leaves the shared cluster role and a shared binding as the other gateway wants them if they were |
| `Together.RestsElsewhere` | internal/controller/higressgateway/higressgateway_controller.go:295-332 | and so it does not disturb a gateway at rest |
| `Neighbours.NeighboursRestExactly` | internal/controller/higressgateway/higressgateway_controller.go:334-386 | beside a gateway at rest, reconciling a second one of its namespace leaves both at rest if and only if they agree on the stored mesh data and on the service |
| `Neighbours.DisagreeingNeighboursNeverRest` | internal/controller/higressgateway/higressgateway_controller.go:334-386 | two valid gateways of one namespace that disagree are never both at rest, in any cluster |
| `Neighbours.ServicesAgreeExactly` | internal/controller/higressgateway/service.go:30-76 | some service suits two gateways if and only if selector, type and ports coincide and the settings written only when set are equal where both set them |
| `Convergence.EveryStepIsGood` | internal/controller/higressgateway/higressgateway_controller.go:99-263 | each call stays in step with the cluster, moves no goal, and if it does not fail ends the reconcile only at rest or where building the service would panic |
| `Convergence.PlanCoversDuties` | internal/controller/higressgateway/higressgateway_controller.go:172-238 | whatever is owed to a kind of object, some command of the program is about it |
| `Protocol.EveryReconcileEnds` | internal/controller/higressgateway/higressgateway_controller.go:99-263 | a reconcile makes at most forty calls, whatever the cluster and the faults |
| `Protocol.ErrorsAreReportedExactly` | internal/controller/higressgateway/higressgateway_controller.go:102-262 | an error reply ends the reconcile with an error except a missing gateway at the first read, any error at the namespace lookup, and what means "nothing to do" to a command: an existing account, a missing object, a missing CRD of the ScaledObject; those go on with the next call |
| `Protocol.LostCallsAreReported` | internal/controller/higressgateway/higressgateway_controller.go:102-262 | a lost call or a lost reply always ends the reconcile, with an error except at the namespace lookup |
| `Protocol.RunConcat` | internal/controller/higressgateway/higressgateway_controller.go:99-263 | a reconcile can be cut at any call and taken up again from where it stood |
| `Reconciler.GatewayReconciler.Reconcile` | internal/controller/higressgateway/higressgateway_controller.go:99-263 | the straight-line reconcile is a run of the protocol from its first read to its end, with the same error |
| `Reconciler.GatewayReconciler.ReconcileLive` | internal/controller/higressgateway/higressgateway_controller.go:132-170 | the namespace check, the finalizer, and the split on validation follow the protocol |
| `Reconciler.GatewayReconciler.Adopt` | internal/controller/higressgateway/higressgateway_controller.go:143-152 | adding the finalizer and rereading the gateway is two steps of the protocol at most |
| `Reconciler.GatewayReconciler.ReconcileResources` | internal/controller/higressgateway/higressgateway_controller.go:172-262 | the resources in order, up to the status, follow the protocol's plan |
| `Reconciler.GatewayReconciler.RejectConfiguration` | internal/controller/higressgateway/higressgateway_controller.go:155-170 | an invalid gateway loses both autoscalers and gets its status, as the plan says |
| `Reconciler.GatewayReconciler.Autoscale` | internal/controller/higressgateway/higressgateway_controller.go:195-236 | the switch over the mode follows the plan and reports whether KEDA was found |
| `Reconciler.GatewayReconciler.AutoscaleWithKeda` | internal/controller/higressgateway/keda.go:152-166 | a missing CRD skips the ScaledObject without an error, any other lookup failure is one |
| `Reconciler.GatewayReconciler.CreateRBAC` | internal/controller/higressgateway/higressgateway_controller.go:295-332 | four objects in order, or nothing if RBAC or the account is disabled |
| `Reconciler.GatewayReconciler.CreateServiceAccount` | internal/controller/higressgateway/higressgateway_controller.go:277-293 | an account that is already there is no error |
| `Reconciler.GatewayReconciler.CreateOrUpdate` | internal/controller/utils.go:39-69 | get, mutate, compare, then create, update or leave is two steps of the protocol at most |
| `Reconciler.GatewayReconciler.Lookup` | internal/controller/utils.go:41-61 | the lookup with the callback is one step, and says whether to insert, to replace what was seen, or to leave it |
| `Reconciler.GatewayReconciler.DeleteIfExists` | internal/controller/higressgateway/keda.go:124-150 | get and delete, a missing object or kind being fine, is two steps of the protocol at most |
| `Reconciler.GatewayReconciler.Finalize` | internal/controller/higressgateway/higressgateway_controller.go:352-376 | the binding first, then the finalizer, and no finalizer taken off after a failure; without an error only if the gateway no longer carries the finalizer |
| `Reconciler.GatewayReconciler.PatchStatus` | internal/controller/higressgateway/higressgateway_controller.go:639-651 | a call is made only for a status that changed |
| `ApiServer.ServeIsLocal` | internal/controller/utils.go:41-65 | a call, served or not, touches at most its target, keeps the store sound and never reuses a version |
| `Safety.StaleWritesAreRefused` | internal/controller/utils.go:41-67 | of an object read at one point of a run and written back at any later one, the write is accepted if and only if the object is still the one read |
| `Safety.CurrentStays` | internal/controller/utils.go:41-67 | every event of the system, call or outside change, leaves what was observed of an object either true or betrayed by its version |
| `CreateOrUpdate.CreateOrUpdate` | internal/controller/utils.go:39-69 | for any store, callback and faults: the store becomes "key set to f(current or initial)" or stays, other keys are untouched, a callback that fails or changes the key costs no write, and Unchanged is reported exactly when the callback is a no-op on the stored object |
| `CreateOrUpdate.Mutate` | internal/controller/utils.go:71-79 | an error exactly when the callback fails or changes the key |
| `CreateOrUpdate.CreateIfNotExists` | internal/controller/utils.go:30-37 | creates what is missing, never overwrites, and reports what was there |
| `CreateOrUpdate.TwiceIsOnceExactly` | internal/controller/utils.go:45-68 | doing it twice is doing it once if and only if the callback adds nothing to its own result or is turned away |
| `CreateOrUpdate.AttemptsConverge` | internal/controller/utils.go:39-69 | with a callback that settles, any failed attempts and then a good one end in the store of one good attempt |
| `CreateOrUpdate.DifferentKeysCommute` | internal/controller/utils.go:40-41 | writers of different objects commute |
| `DeepCopy.CopyGateway` | api/v1alpha1/zz_generated.deepcopy.go:350-366 | for autoscaling and status: the copy says the same at every depth and every cell of it is new |
| `DeepCopy.CopyScaling` | api/v1alpha1/zz_generated.deepcopy.go:31-58 | likewise for the autoscaling config, nil staying nil |
| `DeepCopy.CopyKeda` | api/v1alpha1/zz_generated.deepcopy.go:488-512 | likewise for the KEDA config and its slice of triggers |
| `DeepCopy.CopyTrigger` | api/v1alpha1/zz_generated.deepcopy.go:525-539 | likewise for a trigger's metadata map and authentication text |
| `DeepCopy.CopyStatus` | api/v1alpha1/zz_generated.deepcopy.go:451-460 | the copied conditions are equal and lie in another slice |
| `DeepCopy.SetStatusCondition` | internal/controller/higressgateway/higressgateway_controller.go:615-621 | changing a condition where it lies, or appending it, is the pure update of the list |
| `DeepCopy.MarkStatus` | internal/controller/higressgateway/higressgateway_controller.go:546-637 | the in-place writes of a status amount to the marked status |
| `DeepCopy.PatchStatus` | internal/controller/higressgateway/higressgateway_controller.go:639-651 | although the conditions change in place, a patch goes out if and only if the status differs from what it was, with exactly the old and new status, and that is if and only if it did not already show the verdict |
| `Conditions.MarkShows` | internal/controller/higressgateway/higressgateway_controller.go:546-637 | after a write all four conditions show the verdict and its generation (`ProfilesByField` says what that is), foreign conditions are kept in order, and unique types stay unique |
| `Conditions.MarkNoopExactly` | internal/controller/higressgateway/higressgateway_controller.go:644-648 | a write changes nothing if and only if the status already shows verdict, generation and mode, whatever the clock says |
| `Conditions.MarkTimeless` | internal/controller/higressgateway/higressgateway_controller.go:546-637 | up to transition times the outcome depends on neither clock nor earlier times |
| `Conditions.ProfilesAgree` | internal/controller/higressgateway/higressgateway_controller.go:546-637 | a status shows one verdict at most; deployed holds exactly when Ready and ConfigurationValid are true; all four conditions carry the status's generation |
| `Conditions.ProfilesByField` | internal/controller/higressgateway/higressgateway_controller.go:546-637 | a status shows a verdict if and only if deployed and the truth, reason and message of its four conditions are those listed for it |
| `Conditions.TruthsByVerdict` | internal/controller/higressgateway/higressgateway_controller.go:188-236 | AutoscalingReady is true exactly when autoscaling is disabled or its autoscaler is reconciled; DependencyReady is unknown exactly for a rejected spec and false exactly for KEDA without its CRD |
| `Conditions.TransitionsAreTimed` | internal/controller/higressgateway/higressgateway_controller.go:615-621 | a write moves the time of a condition if and only if it changes its truth |
| `GatewaySpec.DefaultsAreStable` | internal/controller/higressgateway/higressgateway_controller.go:407-451 | filling in defaults twice is filling them in once and changes no decision |
| `GatewaySpec.DefaultsByField` | internal/controller/higressgateway/higressgateway_controller.go:407-451 | what is absent gets its default, what is there and everything else is kept |
| `GatewaySpec.ModesByField` | internal/controller/higressgateway/higressgateway_controller.go:457-470 | an unset mode means KEDA with a KEDA config and native without; autoscaling that is absent or off is disabled; any other mode is kept |
| `GatewaySpec.RejectionsByField` | internal/controller/higressgateway/higressgateway_controller.go:472-544 | each reason for a rejection applies if and only if its own condition holds and none before it does |
| `GatewaySpec.AccessByField` | internal/controller/higressgateway/serviceAccount.go:23-28 | the account is named by its config, or after the gateway if the config leaves the name empty; RBAC is off exactly if a switch that is there is off |
| `Autoscalers.ValidationMeansWellFormed` | internal/controller/higressgateway/higressgateway_controller.go:472-544 | validation passes exactly the specs whose autoscaler would be well formed (plus a CPU request for the HPA), and no unknown mode |
| `Autoscalers.UpdateScaledObjectSpec` | internal/controller/higressgateway/keda.go:37-65 | filling the map key by key gives bounds and target of the spec, polling, cooldown and idle count of the KEDA config each present if and only if it is there, and a trigger for each of its triggers |
| `Autoscalers.UpdateHPAv2Spec` | internal/controller/higressgateway/hpa.go:44-66 | bounds of the spec, the gateway's deployment, and one CPU metric whose utilization is the spec's |
| `Autoscalers.BuildKEDATriggers` | internal/controller/higressgateway/keda.go:67-87 | one trigger for each of the spec's, in order, with its type, its metadata entries, nil for none, and its authentication |
| `Autoscalers.BuildTriggerMetadata` | internal/controller/higressgateway/keda.go:89-100 | nil for an empty map, otherwise the same entries, in any iteration order |
| `Subjects.UpdateBinding` | internal/controller/higressgateway/rbac.go:58-78 | the search loop appends the subject exactly when it is missing |
| `Subjects.RemoveFromBinding` | internal/controller/higressgateway/higressgateway_controller.go:364-370 | the filter loop keeps the others in order |
| `Subjects.AddKeepsOthers` | internal/controller/higressgateway/rbac.go:71-77 | adding leaves the others and their order alone and makes no duplicate |
| `Subjects.AddThenRemove` | internal/controller/higressgateway/higressgateway_controller.go:364-370 | removing what was added restores the list if and only if no subject of that name and namespace was there |
| `MeshConfigMap.UpdateGatewayConfigMapSpec` | internal/controller/higressgateway/configmap.go:32-85 | one pass writes istiod's or higress-controller's address into the instance, as the bundled Istio is on or off, but stores the address found on entry; the other settings stored are right, and the data as a whole if and only if the address found was |
| `MeshConfigMap.CreateConfigMap` | internal/controller/higressgateway/higressgateway_controller.go:378-386 | initialisation and any number of mutations, at least one, store the right address for the bundled Istio being on or off, the right root namespace, networks and other settings, and the user's sources with one extra source, not one a pass |
| `MeshConfigMap.DataByField` | internal/controller/higressgateway/configmap.go:32-85 | data are those a reconcile settles on if and only if address, root namespace, sources, networks and the rest are, setting by setting, what the spec asks for |
| `Objects.MutateSettles` | internal/controller/higressgateway/higressgateway_controller.go:172-240 | for every kind, mutating twice is mutating once, and two map orders differ in nothing but the environment's order |
| `Objects.SelectorMatchesPods` | internal/controller/higressgateway/deployment.go:44-59 | every deployment a reconcile writes selects its own pods |
| `Objects.MutationsByField` | internal/controller/higressgateway/service.go:30-76 | every callback, applied to any stored object, sets the fields the spec decides and keeps those it does not: for a service each setting that is left empty, for a deployment a set count under autoscaling, for a binding its other subjects |
| `Objects.CreationsByField` | internal/controller/higressgateway/higressgateway_controller.go:334-405 | initialising and mutating a new object gives the same as mutating a blank one, with labels, annotations and owner of the gateway |
| `Objects.PlacesByField` | internal/controller/higressgateway/higressgateway_controller.go:277-405 | each object has one place, under the literal name the operator gives it |
| `GatewayDeployment.BuildPodTemplateLabels` | internal/controller/higressgateway/deployment.go:104-121 | in any iteration order the pod labels are the selector's and those scheduling labels whose keys it does not have, nil if there are none |
| `GatewayDeployment.CopyStringMap` | internal/controller/higressgateway/deployment.go:147-158 | nil for a nil or empty map, otherwise the same entries, in any iteration order |
| `GatewayDeployment.UpdateDeploymentSpec` | internal/controller/higressgateway/deployment.go:36-102 | of the fields modelled, all are rebuilt from the gateway field by field, the variables in some order after the operator's own; only a set replica count is carried over |
| `GatewayDeployment.MuteDeployment` | internal/controller/higressgateway/deployment.go:160-165 | the callback in place is the protocol's mutation; it keeps a set count unless autoscaling is disabled |
| `GatewayDeployment.CreateDeployment` | internal/controller/higressgateway/deployment.go:21-34 | although init and mutation both run, a new deployment has the spec's count in every mode, selects its pods, and is settled up to environment order |
| `HpaConversions.ThroughV2beta2` | internal/controller/higressgateway/hpa.go:131-185 | v2 to v2beta2 and back keeps metadata and spec, and is the identity if and only if behavior and status are unset |
| `HpaConversions.ThroughV2beta1` | internal/controller/higressgateway/hpa.go:107-129 | v2 to v2beta1 and back is the identity if and only if, besides, every metric has no value and a type that matches its single average |
| `HpaConversions.TripThroughV2beta1` | internal/controller/higressgateway/hpa.go:187-217 | for lists of any length, the trip restores exactly the metrics that survive it, and a second trip changes nothing more |
| `HpaConversions.TripThroughV2` | internal/controller/higressgateway/hpa.go:187-217 | v2beta1 to v2 and back loses something if and only if a metric has both averages |
| `HpaConversions.GatewayHpaSurvives` | internal/controller/higressgateway/hpa.go:44-66 | a gateway's HPA survives both trips if and only if it has a CPU target, as every validated one has |
| `HpaConversions.ConvertV2ToV2beta1` | internal/controller/higressgateway/hpa.go:107-129 | the loop converts metric by metric, in order, each average into the field of its name |
| `HpaConversions.ConvertV2ToV2beta2` | internal/controller/higressgateway/hpa.go:131-157 | likewise, keeping type and value too |
| `HpaConversions.ConvertV2beta1ToV2` | internal/controller/higressgateway/hpa.go:187-217 | the loop rebuilds each target from the average that is set, utilization first |
| `ControllerDeployment.UpdateDeploymentSpec` | internal/controller/higresscontroller/deployment.go:36-90 | in place: containers are extended, volumes, selector, replicas and account are rebuilt from the spec, for some order of the variables |
| `ControllerDeployment.ContainersByField` | internal/controller/higresscontroller/deployment.go:45-89 | the controller's container is added if and only if its name is missing, then without the bundled Istio the pilot's likewise, each with its own image, variables and mounts |
| `ControllerDeployment.UpdatesAccumulate` | internal/controller/higresscontroller/deployment.go:45-89 | over any sequence of specs the old list stays a prefix, grows by at most two an update, keeps distinct names distinct, and holds exactly the old and the ever-configured names |
| `ControllerDeployment.UpdateAccumulates` | internal/controller/higresscontroller/deployment.go:45-89 | the same for one update, and every added container is one of the spec's two |
| `ControllerDeployment.UpdateIsNoopExactly` | internal/controller/higresscontroller/deployment.go:45-52 | an update leaves the list alone if and only if the configured names are there, whatever images and orders |
| `ControllerDeployment.ReapplyingIsNoop` | internal/controller/higresscontroller/deployment.go:92-97 | applying one spec again adds nothing, in whatever order the variables come |
| `ControllerDeployment.AccumulationEnds` | internal/controller/higresscontroller/deployment.go:45-89 | once all names are there, no sequence of those specs changes the list |
| `ControllerDeployment.MountableExactly` | internal/controller/higresscontroller/deployment.go:65-65 | after an update every container mounts only volumes of the pod if and only if the old containers do under the new volumes |
| `ControllerDeployment.GrowingVolumesStayMountable` | internal/controller/higresscontroller/deployment.go:433-520 | along any run that takes no volume away this stays so |
| `ControllerDeployment.TurningIstioOnStrandsPilot` | internal/controller/higresscontroller/deployment.go:473-484 | for every spec, turning the bundled Istio on leaves a pilot container that mounts a missing volume |
| `ControllerService.UpdateServiceSpec` | internal/controller/higresscontroller/service.go:28-71 | the ports are those of the configured service, or the stored ones without it, and then in order each of the four default ports whose name is not among them; the type falls back on ClusterIP |
| `ControllerService.PortsByField` | internal/controller/higresscontroller/service.go:38-70 | merging is exactly that, port by port |
| `ControllerService.MergeCompletes` | internal/controller/higresscontroller/service.go:38-70 | the given ports come first in order, all four default names are there without the bundled Istio, only missing ones are added and each once, distinct names stay distinct |
| `ControllerService.MergeSettles` | internal/controller/higresscontroller/service.go:73-78 | merging again gives the same ports |
| `ControllerService.SlotsStayDistinctExactly` | internal/controller/higresscontroller/service.go:38-69 | no number is used twice under one protocol afterwards if and only if none was before and none is that of a default missing by name |
| `ControllerCleanup.FinalizeHigressController` | internal/controller/higresscontroller/higresscontroller_controller.go:301-325 | no error and no effect if RBAC or the account is off; else an error exactly if the read or the write fails or the binding is missing, and unless the write is lost exactly the subjects of the controller's account and namespace are gone |
| `ControllerCleanup.ReleaseStrandsExactly` | internal/controller/higresscontroller/higresscontroller_controller.go:133-147 | under faults and outside changes, the one event that leaves a subject without a controller holding it is the accepted removal of the finalizer, and it does so if and only if the subject is bound and a switch is off at that moment |
| `ControllerCleanup.NothingIsStranded` | internal/controller/higresscontroller/higresscontroller_controller.go:117-202 | over any run of faults, retries, switching and changes of the shared binding in which every accepted removal of the finalizer finds both switches on, nothing is left behind |
| `ControllerCleanup.DeletionsEndClean` | internal/controller/higresscontroller/higresscontroller_controller.go:133-147 | whatever fails and whatever happens outside, the reconcile of a deletion ends without an error only once the finalizer is off |
| `ControllerCleanup.LostCallsAreReported` | internal/controller/higresscontroller/higresscontroller_controller.go:117-165 | a lost call or reply always ends it with an error |
| `ControllerCleanup.ErrorsAreReportedExactly` | internal/controller/higresscontroller/higresscontroller_controller.go:117-165 | an answered call ends the reconcile with an error if and only if its write is based on something no longer so, or the binding to finalise is missing; a controller that is gone is no error |
| `ControllerCleanup.OtherSubjectsStay` | internal/controller/higresscontroller/higresscontroller_controller.go:316-324 | a call keeps the subjects of others in order, adds no duplicate and never takes the shared binding away |
| `ControllerCleanup.OtherFinalizersStay` | internal/controller/higresscontroller/higresscontroller_controller.go:133-165 | a call touches no finalizer but its own and nothing else of the controller, which disappears only if it is being deleted and held by nobody else |
| `ControllerCleanup.SwitchingOffStrands` | internal/controller/higresscontroller/higresscontroller_controller.go:301-304 | for every enabled controller there is a run without failures that leaves its subject behind |
| `Crds.CreateCRDs` | internal/controller/higresscontroller/higresscontroller_controller.go:327-359 | success installs the whole list; an error at entry i leaves exactly the first i installed, entry i too only if its write got through late; agreement everywhere means no write |
| `Crds.InstallingKeepsTheRest` | internal/controller/higresscontroller/higresscontroller_controller.go:339-356 | unlisted definitions and existing metadata stay, and nothing unlisted appears |
| `Crds.FirstManifestIsKept` | internal/controller/higresscontroller/higresscontroller_controller.go:339-348 | a definition that is new gets its metadata from the first manifest of its name |
| `Crds.InstallingAgreesExactly` | internal/controller/higresscontroller/higresscontroller_controller.go:349-356 | everything listed agrees afterwards if and only if no two manifests of one name differ |
| `Crds.RetryInstalls` | internal/controller/higresscontroller/higresscontroller_controller.go:339-358 | after an attempt that ended anywhere, a whole run gives what one uninterrupted run gives |
| `Crds.AgreedIsNoop` | internal/controller/higresscontroller/higresscontroller_controller.go:349-356 | installing a list everything already agrees with changes nothing |

## Left out

- The real API server: defaulting and validation of stored objects, garbage collection through owner references,
  caches and watches, and finalizers on objects other than gateways. A delete is atomic here.
- RetriesConverge: takes states in which building the service would write into a nil label map as excluded; what
  such states lead to is `ReconcileSucceedsExactly`.
- ReconcilingGoesQuiet: likewise.
- GatewaysSettleTogether: users change nothing during such a run, and a failing namespace lookup of the gateway itself is
  excluded before it has settled, since the source swallows that error.
- StatusWritesAgree: other writers of a gateway's status are not modelled, so the merge patch always meets its base.
- Skywalking: assumed off, with its config map, its variable and its volume.
- Nil and empty label maps are one value in stored objects, as they are to the store; where the difference matters (a
  write into a nil map) the empty map stands for nil. Semantic equality treats them alike too.
- The wording of conditions' messages: each text is represented by a name.
- A panic ends the reconcile like an error; that the framework recovers from it is not modelled.
- CopyGateway: copies autoscaling and status only; object metadata and the other spec fields are left out, as no
  status or autoscaling code writes through them.
- UpdateDeploymentSpec: leaves out, for gateway and controller alike, what is listed next.
- Constant pod content: arguments, probes, ports, security contexts, fixed variables, rolling-update bounds, affinity,
  tolerations. Of the gateway's fixed variables only two stand in for the list, of the controller's none.
- Policy rules beyond the gateway's one rule, and the controller's RBAC objects other than its cluster role binding.
- The user's environment is a list of entries in `GatewaySpec`, the listed order being one of those a map iteration
  can take; in `ControllerDeployment` it is a map.
- The builder's write of the discovery address into the gateway it holds: in `MeshConfigMap` only. The protocol keeps the
  gateway as read, because that copy is never written back after the finalizer is on it. The network label
  the service builder puts into the gateway's own label map is left out for the same reason.
- YAML text is kept as the value it was marshalled from, so marshalling is injective and never fails.
- `resources.requests.cpu` is one optional number; a broken path to it and a missing entry are one case, as they are
  for validation.
- Integer widths: replica counts, ports and durations are only copied and compared, so they are unbounded here.
- Spare capacity of slices: appending a condition always moves to a new slice in `DeepCopy`, and deep copies of types
  that status and autoscaling do not reach are left out.
- HPA conversions of metrics without a resource source, on which the source panics.
- The RESTMapper being unset, events, logging, and errors of setting an owner reference.
- HigressController's Reconcile: its calls follow the gateway's scheme, so only what differs (CRDs, accumulating
  containers, port merge, finalisation) is modelled. `ControllerCleanup` keeps the calls that touch the controller or its
  cluster role binding; a failure of any other is like the loss of the next of these.
- Reading CRD manifests from disk; the list is an input. Building their client cannot fail here.
