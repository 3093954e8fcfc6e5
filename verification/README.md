# Worker controller: a verified model

The Temporal worker controller runs one Kubernetes Deployment per worker version and moves traffic between
versions by writing the routing config of a Worker Deployment on the Temporal server. A reconcile reads both
sides, maps them to a status, plans, and executes the plan as a sequence of calls of which any prefix may take
effect. This project models that loop and proves what it promises, for all inputs, all runs and all interleavings.

What the source changes in place is a class or a loop here, proved against a function of the values before; the
properties are then lemmas about those functions, and about runs of steps built from them.

| file | models | main results |
|---|---|---|
| `api.dfy` | the resource's status and spec | |
| `webhook.dfy` | defaulting and admission of a rollout | errors are exact; no errors iff the steps increase and pause long enough |
| `rollout.dfy`, `rollout_loop.dfy` | the progressive rollout engine, alone and in closed loop | a rank decreases with every change; promotion in bounded time under frequent reconciles; exactly which steps promote; order and duration of a rollout |
| `temporal.dfy`, `state_mapper.dfy`, `kubernetes.dfy` | the two observed states and the status | newest Deployment per build ID; partition of the build IDs; no stall |
| `planner.dfy`, `decisions.dfy`, `serving.dfy` | what a plan deletes, scales, creates, tests and routes | exact plans whatever the map order; serving safety |
| `convergence.dfy`, `lifecycle.dfy` | passes over a still world; runs over a moving one | three passes suffice, and two may not, exactly unless the target's name is refused; deletion only after sunset; the version cap |
| `gate.dfy`, `gate_runs.dfy` | gate workflows, in one reconcile and over runs | gate soundness; which starts are refused; every queue tested by exactly its own workflow |
| `pod_templates.dfy`, `build_ids.dfy`, `drift_updates.dfy`, `fresh_build.dfy` | building, naming and updating Deployments | every worker finds its server, namespace, deployment, build and credentials; an updated Deployment equals a fresh one, exactly when; updates reach a fixpoint; build IDs are labels; which build IDs share a Deployment name |
| `execution.dfy`, `controller.dfy`, `routing_protocol.dfy` | execution of plans, a whole reconcile, many reconciles against one server | every call as often as listed, in stages; ownership of the routing config; pauses under interference; one commit per conflict token |
| `rounds.dfy` | one whole reconcile, from the server's answers to its plan | exactly when and how the routing changes; a progressive rollout follows the closed loop; exactly what is scaled, created, updated, tested |

`RoutingProtocol` assumes of the server: every write takes a new conflict token and records its author, a change
of the ramp is stamped with the time, and a write whose token is not the latest is refused. Reconciles, human and
server edits, crashes and time interleave freely, one call at a time. `GateRuns` does the same for the look-ups and
starts of gate workflows by any number of reconciles. `Lifecycle` follows one reconcile at a time over the
Deployments: a first look at the cluster, the server's answers, a second look with the planning, and each call are
separate moments, between which anything may change. `Controller.Round` is one whole reconcile; the results of
`Serving` and `Rounds` are about its plan.

Times are whole nanoseconds. The planner does not read the status as mapped but as the API server hands it back,
and that keeps whole seconds: `StateMapper.Stored` cuts the times, and pauses and delays are stated with the cut.

Where the code falls short of what one would expect, the exact condition is a lemma, with an input beside it:

* A rollout is promoted if and only if each stage of its steps ends on its own highest percentage, whether it
  starts from no ramp or from any (`RolloutLoop.PromotesFromNoRampIffPlateaued`,
  `PromotesFromEveryRampIffPlateaued`); `DippingStepsNeverPromote` circles for ever. The admission rule is sufficient.
* A pause or a sunset delay is kept in full if and only if the server's time stamp is a whole second
  (`Rollout.FullPauseIffWholeSecond`, `Lifecycle.FullDelayIffWholeSecond`); otherwise less than a second is missing.
* Repeated passes come to rest if and only if the API server does not refuse the target's Deployment for its name
  when the cap first leaves room (`Convergence.ConvergesIffNotBlocked`). It refuses a name with a capital letter,
  exactly if the build ID has one (`BuildIds.NameIsAdmissibleIff`), and a name that is taken; two build IDs of a
  resource share a name if and only if they do after every run of dots and underscores has become a dash
  (`BuildIds.NamesCoincideIff`). V1 blocks every later plan by itself, v1-0 while v1.0 exists
  (`Convergence.CapitalBlocksItself`, `DottedBlocksDashed`).
* The connection patch equals a fresh build if and only if the credentials stay and no address variable of the
  user's own differs (`FreshBuild.PatchIsFreshIff`, `NewAPIKeyIsNotPatched`); drift is missed if and only if address and secret name
  concatenate to the same string (`DriftSeenIff`, `MoveToAPIKeyIsUnseen`).
* A Deployment without a stored template hash never takes up a changed template, and never gets a hash
  (`FreshBuild.UnhashedStaysUnhashed`). A comment in the source expects the next change of the spec to add one
  (internal/planner/planner.go:199-200).
* A ramping version loses its Deployment if and only if the server summarizes other versions but not that one
  (`Serving.RampingIsDeletedIff`, `UnsummarizedRampingIsDeleted`).
* A planned gate workflow is refused if and only if the scan failed and the workflow exists, or its ID was found on
  another queue (`GateRuns.RefusedIff`, with the builds v1 and v1-x in `SharedIDIsRefused`). The IDs of two builds
  coincide if and only if one build ID continues the other past a dash and the queues make up the difference
  (`Gate.WorkflowIDsCoincideIff`).
* An ignore flag outlives the reconcile that used it unless an event takes it off (`RoutingProtocol.FlagStaysIff`),
  and a set flag covers whatever anybody writes (`SetFlagCoversAnyEdit`). In the run of
  `LeftoverFlagOverridesARollback` a person's roll-back is overridden on the strength of a flag already used.

## Model

| member | source | states |
|---|---|---|
| Webhook.ValidateRolloutStrategy | api/v1alpha1/temporalworker_webhook.go:105-132 | A strategy is let through if and only if it is not Progressive or its percentages are positive and strictly increasing and every pause is at least 30 s; otherwise the errors found step by step |
| Webhook.ErrorsAreExact | api/v1alpha1/temporalworker_webhook.go:116-131 | A short pause, and a ramp not above its predecessor, is reported at its own step, and nothing else is |
| Webhook.StepwiseIsIncreasing | api/v1alpha1/temporalworker_webhook.go:124-130 | Comparing neighbours with lastRamp orders all pairs of steps |
| Webhook.SunsetStrategy.Default | api/v1alpha1/temporalworker_webhook.go:51-61 | Delays the user left out become 1 h and 24 h; a second defaulting changes nothing |
| Rollout.CurrentStep | internal/planner/planner.go:642-657 | The current step is the last one before the first step above the ramp, step 0 if there is none or no ramp |
| Rollout.GetCurrentStepIndex | internal/planner/planner.go:642-657 | The scanning loop finds that step for any steps, increasing or not |
| Rollout.HandleProgressiveRollout | internal/planner/planner.go:589-640 | The version config is filled in place with exactly the decision hold, set a ramp, or promote; null if and only if it holds |
| Rollout.FullPauseIffWholeSecond | internal/planner/planner.go:625-636 | Seen through the stored status, a step's pause is kept in full at every moment if and only if the ramp was changed on a whole second |
| RolloutLoop.RankDecreases | internal/planner/planner.go:605-640 | Every config emitted in closed loop strictly decreases the number of changes still to come, from any ramp |
| RolloutLoop.BoundedChanges | internal/planner/planner.go:605-640 | Any run from any ramp, reconciled at any times, changes the routing at most n + 1 times |
| RolloutLoop.Promotes | internal/planner/planner.go:616-636 | Among any reconciles in order, as many that come past all pauses after the last counted one as the rank says make the target current, from any ramp |
| RolloutLoop.AdmittedStepsPromote | api/v1alpha1/temporalworker_webhook.go:108-132 | n steps that pass admission promote from any starting ramp within n + 1 changes, however many reconciles fall inside the pauses |
| RolloutLoop.PromotesInTime | internal/controller/worker_controller.go:246-249 | With reconciles at most some gap apart, ten seconds in the source, admitted steps are promoted after n + 1 times the longest pause and gap |
| RolloutLoop.OffStepIsCorrectedDown | internal/planner/planner.go:617-623 | A ramp off the steps is first set to the greatest step below it, or to the first step |
| RolloutLoop.VisitsStepsInOrder | internal/planner/planner.go:605-640 | With no outside edits from no ramp the percentages set are the steps in order, and promotion comes later than the sum of all pauses for whole-second stamps, than that sum less one second a step for any |
| RolloutLoop.PromotesFromEveryRampIffPlateaued | internal/planner/planner.go:589-657 | For any steps: enough reconciles past the pauses promote from every ramp if and only if each stage ends on its own highest percentage |
| RolloutLoop.PromotesFromNoRampIffPlateaued | internal/planner/planner.go:589-657 | From no ramp: under the same condition promoted as soon as enough reconciles are past the pauses, otherwise never, at whatever times it is reconciled |
| RolloutLoop.DippingStepsNeverPromote | internal/planner/planner.go:617-657 | 25, 10, 50 percent is never promoted from no ramp, at whatever times it is reconciled |
| Temporal.ShouldIgnoreLastModifier | internal/temporal/worker_deployment.go:350-366 | True if and only if the current version carries the flag; nil is dereferenced if and only if there is a ramping and no current version |
| Temporal.InfoOf | internal/temporal/worker_deployment.go:138-187 | A version is Drained without a drain time if and only if it drained and asking since when failed otherwise than by NotFound |
| Temporal.ClassifyVersion | internal/temporal/worker_deployment.go:132-210 | The branches of the summary loop give the status, drain time and poller facts that the classification prescribes |
| Temporal.TemporalWorkerState.FillVersions | internal/temporal/worker_deployment.go:131-213 | The loop fills the version map with the classification of every summary, a later one of the same build ID winning |
| Temporal.GetWorkerDeploymentState | internal/temporal/worker_deployment.go:69-216 | Not found gives the empty state, an error in describing or in reading the flag ends the reconcile, otherwise the whole observed state |
| Temporal.VersionsAreSummarized | internal/temporal/worker_deployment.go:131-213 | A build ID is in the version map if and only if it is summarized, and as one of its summaries classifies it |
| Temporal.EachSummaryStands | internal/temporal/worker_deployment.go:131-213 | With one summary per build ID the classification of each is what the map holds |
| BuildIds.CleanedIsLegal | internal/k8s/deployments.go:191-198 | Any cleaned string has legal characters only, begins and ends alphanumeric unless empty, and is no longer than before |
| BuildIds.CleaningTwiceIsCleaningOnce | internal/k8s/deployments.go:191-198 | cleanBuildID is idempotent |
| BuildIds.RunBecomesOneDash | internal/k8s/deployments.go:174-195 | In either cleaning a maximal run of characters not allowed becomes one dash, and what stands before and after it is cleaned by itself |
| BuildIds.CustomBuildIDIsLabelIff | internal/k8s/deployments.go:119-123 | A custom build ID becomes a valid label value if and only if cutting it at 63 leaves no separator at the end |
| BuildIds.BuildIDIsLabel | internal/k8s/deployments.go:117-136 | Every image and every custom ID of at most 63 characters yield a non-empty valid label value; with neither it is the long hash |
| BuildIds.ImageBuildIDEndsInHash | internal/k8s/deployments.go:127-133 | An image-derived ID is a valid label and ends in its short hash, whatever the image string |
| BuildIds.ImageIDShowsItsText | internal/k8s/deployments.go:127-165 | A tag, digest, path or image that reads as a label shows in the build ID, its first 58 characters, then a dash and the hash |
| BuildIds.DifferentHashesDifferentIDs | internal/k8s/deployments.go:127-133 | Different short hashes give different image-derived IDs |
| BuildIds.WorkerDeploymentsAreOwn | internal/k8s/deployments.go:139-142 | Two resources have the same worker deployment name if and only if namespace and name are the same |
| BuildIds.NamesCoincideIff | internal/k8s/deployments.go:145-147 | Two build IDs of one resource get the same Deployment name if and only if they clean to the same DNS string |
| BuildIds.DashedIDsHaveOwnNames | internal/k8s/deployments.go:174-178 | Build IDs of letters, digits and dashes have the same Deployment name only if they are equal |
| BuildIds.DifferentHashesDifferentNames | internal/k8s/deployments.go:145-147 | Image-derived IDs with different short hashes have different Deployment names |
| BuildIds.DottedAndDashedShareAName | internal/k8s/deployments.go:174-178 | v1.0 and v1-0, both valid labels, get the same Deployment name |
| BuildIds.NameIsAdmissibleIff | internal/k8s/deployments.go:145-147 | The API server accepts a version's Deployment name if and only if its build ID has no capital letter |
| BuildIds.CapitalIsInadmissible | internal/k8s/deployments.go:174-178 | V1 is a valid label, and no resource gets an admissible Deployment name from it |
| PodTemplates.PodSpecCopy.ApplyControllerModifications | internal/k8s/deployments.go:320-394 | The three loops append exactly the controller's variables, mounts and volume to the user's containers and volumes; every container then serves its worker |
| PodTemplates.ControlledServesWorkers | internal/k8s/deployments.go:320-394 | In every container the worker finds address, namespace, deployment name and build ID, and the TLS variables with mount and volume, or else the API key from its secret, each the only one of its name unless the user has one of that name; the user's own come first, and nothing else is added |
| Kubernetes.NewDeployment | internal/k8s/deployments.go:201-272 | Name, labels, selector and replicas of a fresh Deployment; its pods carry the selector over the user's labels and the two hashes over the user's annotations, and every container serves the worker of the version asked for |
| Kubernetes.SelectorLabelsAreValid | internal/k8s/deployments.go:209-212 | Both selector labels are valid label values; one is the build ID, the other the resource's name, its dots cleaned away |
| Kubernetes.IsDeploymentHealthy | internal/k8s/deployments.go:96-104 | The transition time of the first Available condition that is true |
| Kubernetes.HealthySinceIs | internal/k8s/deployments.go:96-104 | Healthy if and only if some Available condition is true, since the transition of the first such |
| Kubernetes.SortSorts | internal/k8s/deployments.go:77-79 | Sorting orders by creation time and keeps every Deployment |
| Kubernetes.SortIsStable | internal/k8s/deployments.go:77-79 | Deployments of one creation time keep the order in which they were listed |
| Kubernetes.IndexHoldsTheNewest | internal/k8s/deployments.go:82-90 | Indexing in creation order leaves the newest Deployment of each label |
| Kubernetes.GetDeploymentState | internal/k8s/deployments.go:52-93 | Exactly the labelled build IDs are in the state, each with the newest Deployment that carries it, its reference, replicas and health |
| StateMapper.MapToStatus | internal/controller/state_mapper.go:31-73 | The status mapped from the two states, ramp fields included, for any map order |
| StateMapper.MapCurrentVersion | internal/controller/state_mapper.go:76-108 | Filled field by field: none for an empty build ID, else status, health and reference as far as known |
| StateMapper.MapTargetVersion | internal/controller/state_mapper.go:111-152 | Filled field by field; a positive ramp only for a ramping version, queues and gate workflows from the version info |
| StateMapper.MapDeprecatedVersion | internal/controller/state_mapper.go:155-199 | Filled field by field; eligible for deletion only if drained and without versioned pollers |
| StateMapper.MapDeprecatedVersions | internal/controller/state_mapper.go:56-67 | The map loop lists every deprecated version once and no other, in any order |
| StateMapper.StatusPartitions | internal/controller/state_mapper.go:42-67 | Each labelled non-empty build ID is current, target or deprecated, deprecated only if neither, once, with its own reference |
| StateMapper.ShownAsObserved | internal/controller/state_mapper.go:76-199 | In whatever part a version with a Deployment is shown, it is shown with its own reference and health and the server's status and task queues, and nowhere otherwise |
| StateMapper.StoredIsRead | internal/controller/worker_controller.go:214-215 | The status handed back after storing is the one mapped from the observed state with its times cut to whole seconds, for any map order |
| Planner.GetDeleteDeployments | internal/planner/planner.go:333-373 | The Deployments deleted are those of the deprecated versions past both delays at zero replicas, or unknown to a server that knows others |
| Planner.GetScaleDeployments | internal/planner/planner.go:376-442 | The scale map, folded over current, target and deprecated versions |
| Planner.ScaleVersion | internal/planner/planner.go:405-439 | The size a deprecated version gets, case by case |
| Planner.ShouldCreateDeployment | internal/planner/planner.go:445-467 | Created if and only if the target has no Deployment and fewer than the maximum of deprecated versions are ineligible for deletion |
| Planner.GetTestWorkflows | internal/planner/planner.go:470-510 | One start per target queue without a gate workflow, none if there is no gate, the target is current or unregistered |
| Planner.GetVersionConfigDiff | internal/planner/planner.go:513-586 | The routing change asked for, over all branches: forced Manual, health, gate, fast track, ramp reset, strategy |
| Decisions.DeletePlanIsExact | internal/planner/planner.go:341-369 | A build ID is deleted if and only if the observed states and the second look at the cluster call for it |
| Decisions.ScalePlanOf | internal/planner/planner.go:384-441 | A Deployment has one scale value at most, the one the observed states and the second look call for, and none otherwise |
| Decisions.ScalePlanKeys | internal/planner/planner.go:384-441 | Only references of observed Deployments are scaled |
| Decisions.CreateIsExact | internal/planner/planner.go:449-466 | The count over the list is the number of ineligible build IDs that are neither current nor target |
| Decisions.PlansIgnoreMapOrder | internal/controller/state_mapper.go:56-67 | Two mappings of the same states in different orders plan the same deletes, scales, create, updates, tests and routing change |
| Serving.InServiceIsNotDeleted | internal/planner/planner.go:347-369 | If the routed versions are summarized, no reconcile plans to delete the Deployment of a current, ramping, target, Draining or Inactive version |
| Serving.NothingFoundNothingDeleted | internal/planner/planner.go:361-368 | A reconcile that did not find the deployment on the server deletes nothing |
| Serving.RoutedKeepTheirSize | internal/planner/planner.go:386-437 | Under the same condition a reconcile scales a current, target or ramping version to the spec's replicas or not at all |
| Serving.DrainingIsNotScaled | internal/planner/planner.go:414-438 | No reconcile scales a deprecated version while it drains |
| Serving.RampingIsDeletedIff | internal/planner/planner.go:361-368 | A reconcile deletes a deprecated ramping version that its second look still shows if and only if the server summarizes other versions but not that one |
| Serving.UnsummarizedRampingIsDeleted | internal/planner/planner.go:361-368 | A rollout in progress on a server that ramps r and summarizes only the target: the Deployment of r is deleted |
| Serving.DrainTimeMissingIff | internal/temporal/worker_deployment.go:175-185 | The drain time the planner dereferences is missing if and only if asking for it failed otherwise than by NotFound |
| Serving.DeletedIsNotScaled | internal/planner/planner.go:341-441 | No Deployment is both deleted and scaled in one plan, even though the two lists are drawn up at different times |
| Convergence.ExecutedOutcome | internal/controller/execplan.go:34-57 | What executing deletes and scales call by call leaves of each Deployment |
| Convergence.PassExecutesThePlan | internal/controller/execplan.go:25-57 | One pass per build ID is what executing the planner's plan call by call does, a create refused for its name dropping the rest |
| Convergence.PassKeepsRefsDistinct | internal/controller/execplan.go:25-57 | References stay distinct from pass to pass, so every pass is what a plan does |
| Convergence.RestsIffQuietOrStuck | internal/controller/execplan.go:25-32 | A pass changes nothing if and only if its plan is empty or begins with a create that is refused |
| Convergence.ConvergesIffNotBlocked | internal/planner/planner.go:333-467 | With server, spec and clock still, three passes or more leave a plan with no delete, scale or create if and only if the target's name is admissible and free when the cap first leaves room; otherwise a plan that is refused for ever |
| Convergence.ConvergesInThreePasses | internal/planner/planner.go:333-467 | In particular if the target has a Deployment, or its name is admissible and free |
| Convergence.DottedBlocksDashed | internal/controller/execplan.go:25-32 | With the v1.0 Deployment present and target v1-0, no pass changes anything, although the current version is due a scale |
| Convergence.CapitalBlocksItself | internal/controller/execplan.go:25-32 | Nor with target V1, in a namespace where no name is taken |
| Convergence.TwoPassesMayNotDo | internal/planner/planner.go:333-467 | Three is sharp: a world in which the first, second and third plan all act |
| Lifecycle.SunsetIsDecided | internal/planner/planner.go:341-369 | The planner deletes exactly on this: listed at the first look, told drained or unregistered and unrouted, and if drained, at zero replicas with both delays over at the second look, counted from the whole second of the drain time |
| Lifecycle.DeletedOnlyAfterSunset | internal/controller/worker_controller.go:183-243 | Over all runs, crashes and outside edits at any moment, a delete call was preceded by three moments of the run at which just that was so, in this order |
| Lifecycle.FullDelayIffWholeSecond | internal/planner/planner.go:357-358 | The planner keeps both delays in full whenever it looks if and only if the drain time is a whole second |
| Lifecycle.CapIsKept | internal/planner/planner.go:445-467 | Every step of a run keeps the cap, a create still to come counted in |
| Lifecycle.VersionCap | internal/planner/planner.go:445-467 | From an empty cluster, if eligible versions stay eligible, there are never more than max + 1 managed versions ineligible for deletion |
| Gate.GetTestWorkflowStatus | internal/temporal/worker_deployment.go:233-302 | The loop returns the workflows found, or an error, and has filed every queue it looked at under the version, also when it fails half-way |
| Gate.GenerateStatus | internal/controller/genstatus.go:18-58 | The gate is read only when the target is not current, a failure is swallowed, and the status is mapped from the state so filed |
| Gate.EqualCountsCoverEveryQueue | internal/temporal/worker_deployment.go:264-299 | The scan finds no more workflows than queues; equal counts, all completed, mean every workflow queue has its own completed gate workflow |
| Gate.GateSoundness | internal/planner/planner.go:533-546 | A routing change is planned under a gate only if every workflow queue's own gate workflow completed, for all answers and failures of the look-ups |
| Gate.GateOpensIff | internal/planner/planner.go:533-546 | The planner's count lets a target through if and only if it is registered, not current, and has a workflow queue and each of its workflow queues has its own completed gate workflow |
| Gate.ObservedEntriesAreFresh | internal/temporal/worker_deployment.go:132-136 | The observed entry of the target holds no queues or gate workflows before the gate is read |
| Gate.RampResetIffNoGate | internal/planner/planner.go:561-571 | With the target current, another version's ramp is withdrawn without a gate, and never with one |
| Gate.WorkflowIDInjectiveInQueue | internal/temporal/worker_deployment.go:328-330 | For one build, different queues have different gate workflow IDs |
| Gate.WorkflowIDsCoincideIff | internal/temporal/worker_deployment.go:328-330 | Over builds and queues two IDs coincide if and only if both are equal, or one build ID continues the other past a dash and the other's queue is the rest, a dash and the queue |
| Gate.BuildsShareAWorkflowID | internal/temporal/worker_deployment.go:328-330 | Queue x-main of build v1 and queue main of build v1-x |
| GateRuns.NoWorkflowStartedTwice | internal/controller/execplan.go:112-117 | Over all runs of any number of reconciles cut off anywhere, no gate workflow ID is started twice: a consequence of the reject-duplicate policy |
| GateRuns.RefusedIff | internal/planner/planner.go:489-507 | Which planned starts the server is bound to refuse: after a failed scan those whose workflow exists, otherwise exactly those whose ID was found on another queue |
| GateRuns.SharedIDIsRefused | internal/planner/planner.go:489-507 | Build v1-x's start for queue main is refused while build v1 has tested its queue x-main |
| GateRuns.ScansAreRemembered | internal/temporal/worker_deployment.go:264-299 | Over all runs what an unfinished scan has heard of found and completed workflows still holds, however the look-ups interleave with others' starts |
| GateRuns.SoundScanPlansNewStarts | internal/planner/planner.go:489-507 | With gate workflows on their own queues and a scan that did not fail, no planned start names an ID that exists |
| GateRuns.PlannedStartsAreOwn | internal/planner/planner.go:489-507 | Every start planned is of the gate's workflow type, pinned to the version, on one of its workflow queues, under that queue's ID |
| GateRuns.QueuesStayOwn | internal/controller/execplan.go:112-133 | Over all runs the controllers' own starts keep each gate workflow of the build on the queue its ID names |
| GateRuns.RoutingChangesOnlyBehindTheGate | internal/planner/planner.go:533-546 | When a routing change is made under a gate, each workflow queue the reconcile saw has its completed gate workflow, and a completed gate workflow ran on that very queue |
| GateRuns.CompletedExecutionTestsEveryQueue | internal/controller/execplan.go:71-134 | A reconcile that makes all its calls leaves each queue to be tested with exactly one gate workflow of the build |
| DriftUpdates.UpdateDeploymentWithConnection | internal/planner/planner.go:147-169 | In place: the hash, the first TLS secret volume and every address variable change, nothing else |
| DriftUpdates.PatchesFirstTLSVolume | internal/planner/planner.go:151-158 | Of the volumes exactly the first secret volume named temporal-tls changes, and only in its secret |
| DriftUpdates.CheckConnection | internal/planner/planner.go:124-144 | Updates if and only if the Deployment exists and its connection hash differs, and touches no other Deployment |
| DriftUpdates.UpdateDeploymentWithPodTemplateSpec | internal/planner/planner.go:222-281 | In place: template rebuilt with the build ID and name recovered from the Deployment, so that every container serves the worker of these, replicas and min-ready seconds from the spec |
| DriftUpdates.CheckPodTemplate | internal/planner/planner.go:176-218 | Updates if and only if a custom build ID is set, a hash is stored and it differs |
| DriftUpdates.FindDeploymentName | internal/planner/planner.go:236-248 | The nested loops find the first non-empty first-of-its-container deployment name |
| DriftUpdates.FoundIsFirst | internal/planner/planner.go:236-248 | What a worker finds is the first variable of its name, unless the user has one of that name |
| DriftUpdates.GetUpdateDeployments | internal/planner/planner.go:283-330 | Returns exactly the drifted Deployments, each once, each updated as its kind of drift asks, and leaves the others as they were |
| DriftUpdates.UpdatedDoesNotDrift | internal/planner/planner.go:120-218 | No update leaves drift behind |
| DriftUpdates.UpdateTwice | internal/planner/planner.go:283-330 | A second call on the heap the first leaves behind returns nothing |
| FreshBuild.RebuildIsFreshIff | internal/planner/planner.go:222-281 | The rebuilt template equals a fresh build under the new spec and connection if and only if the deployment name is read back right, or there is no container to put it in |
| FreshBuild.NameIsSeen | internal/planner/planner.go:236-248 | It is read back right unless a variable of the user's own takes its name |
| FreshBuild.RebuildMatchesFresh | internal/k8s/deployments.go:201-272 | Build, update in place, build afresh: the two Deployments agree in template, replicas, min-ready seconds, labels and selector, and serve the workers of the new spec, connection and the same version |
| FreshBuild.PatchIsFreshIff | internal/planner/planner.go:147-169 | The patched template equals a fresh build if and only if auth mode and API key are unchanged and the user's own address variables already hold the new address |
| FreshBuild.NewAPIKeyIsNotPatched | internal/planner/planner.go:151-168 | A change from API key secret a to b is not patched in |
| FreshBuild.DriftSeenIff | internal/k8s/deployments.go:275-292 | Connection drift is seen if and only if address and secret name concatenate to different strings |
| FreshBuild.TemplateDriftSeenIff | internal/planner/planner.go:176-218 | A changed template is noticed if and only if the resource sets its build ID itself |
| FreshBuild.UnhashedStaysUnhashed | internal/planner/planner.go:192-203 | A Deployment without a stored hash is not rebuilt, and no update stores one: a changed template never reaches it |
| FreshBuild.MoveToAPIKeyIsUnseen | internal/k8s/deployments.go:283-289 | A change from TLS secret x to API key secret x is not seen, although a fresh build differs |
| Execution.ExecutePlan | internal/controller/execplan.go:24-194 | What has taken effect is a prefix of create, deletes, scales, updates, gate workflows, routing change, flag removals; all of it if and only if no error is returned |
| Execution.EveryCallAsListed | internal/controller/execplan.go:24-194 | A call is among a plan's calls if and only if the plan lists it, and as often: the create, a delete, a scale, an update, a gate workflow, the routing change, its stamp, a flag removal |
| Execution.CallsComeInStages | internal/controller/execplan.go:24-194 | The kinds of calls come in that order |
| Execution.RangeOverKeys | internal/controller/execplan.go:43-57 | The scale map is visited key by key, each once, in any order |
| Execution.RoutingComesLate | internal/controller/execplan.go:136-191 | In any prefix a routing change comes after the whole cluster part and all gate workflows, a flag removal after its routing change |
| Execution.CreateComesFirst | internal/controller/execplan.go:25-32 | A create is the first action of its plan |
| Controller.PlanRouting | internal/controller/genplan.go:83-91 | The strategy is forced to Manual if somebody else wrote last and no flag was read; tests, change and the flags to remove follow |
| Controller.PlanCluster | internal/planner/planner.go:91-95 | Deletes, scales and create are decided before the updates change the Deployments, updates are exactly the drifted ones |
| Controller.GeneratePlan | internal/planner/planner.go:69-118 | The whole plan, cluster part and routing part, from one status and one observed state |
| Controller.ObservedDrainsAreKnown | internal/temporal/worker_deployment.go:175-185 | If no question about a drain time failed otherwise than by NotFound, every drain time the planner dereferences is there |
| Controller.TargetIsPresent | internal/planner/planner.go:555-560 | The entry the fast-track test looks up unchecked is there in every mapped status |
| Controller.NoStallNoMissingEntry | internal/controller/state_mapper.go:46-52 | In every reconcile the target's ramp percentage is set if and only if its last change is, both as the server describes them, so the nil-time branch of the rollout is never taken; a registered target has its version entry |
| Controller.ObserveAndMap | internal/controller/worker_controller.go:183-213 | Cluster, server and gate are read and mapped in that order, what is seen of the cluster are its newest Deployments, and an error in reading ends the reconcile |
| Controller.StoreAndPlan | internal/controller/genplan.go:65-75 | The planner reads the stored status and a second view of the cluster |
| Controller.PlanIsOfTheRound | internal/planner/planner.go:91-94 | The plan for the stored status and the second look is the plan for what the reconcile observed |
| Controller.GatedChangeMeansEveryQueuePassed | internal/planner/planner.go:533-546 | From the server's answers to the plan: a routing change under a gate means every workflow queue of the target has its own completed gate workflow |
| Controller.Reconcile | internal/controller/worker_controller.go:183-245 | What reaches the servers in a reconcile is a prefix of a plan drawn up from what that reconcile observed, stored and read again, nothing if observing failed; without an error every call the plan lists has been made |
| Rounds.VersionStands | internal/temporal/worker_deployment.go:131-210 | From the server's answers: which of the six statuses each summarized version has, and its drain time |
| Rounds.OnlySummarizedAreRegistered | internal/temporal/worker_deployment.go:131-213 | What a reconcile knows of are the summarized versions |
| Rounds.ObservingFailsIff | internal/temporal/worker_deployment.go:86-117 | A reconcile ends in observing if and only if the deployment cannot be described, or somebody else wrote the routing and the current version's flag cannot be read, or there is no current version while another ramps |
| Rounds.RampIsTheServers | internal/controller/state_mapper.go:46-52 | The target's ramp and its two times are the server's, cut to the second, and absent if another version ramps |
| Rounds.ChangeNeedsReadiness | internal/planner/planner.go:524-546 | No reconcile changes the routing unless the target's Deployment is available, the target registered and through its gate, the strategy not Manual, and the routing the controller's to change |
| Rounds.OwnedIff | internal/temporal/worker_deployment.go:111-117 | It is the controller's to change if and only if it, the server making room, or nobody wrote it last, or the current version's flag is true |
| Rounds.SettledOnlyWithdraws | internal/planner/planner.go:562-571 | With the target current and ready the change is exactly the withdrawal of another version's ramp |
| Rounds.PromotedAtOnce | internal/planner/planner.go:553-579 | A ready target is set current at once under AllAtOnce, and in a first rollout with unversioned pollers not confirmed |
| Rounds.ProgressiveFollowsTheLoop | internal/planner/planner.go:580-583 | Any other ready target gets exactly the move that the closed loop of RolloutLoop makes from the server's ramp |
| Rounds.FirstRollout | internal/planner/planner.go:553-560 | From the server's answers: with no current version and the target registered, unrouted and ready, it is set current at once, unless the strategy is Progressive and all its queues are confirmed to have unversioned pollers; then it gets the first step |
| Rounds.FlagsRemovedIff | internal/planner/planner.go:103-112 | Exactly the flags of the ramping and the current version are removed, with a change made on a flag |
| Rounds.TestsAreTheGates | internal/planner/planner.go:489-507 | Every gate workflow planned in a reconcile is of the gate's type, pinned to the target, on a workflow queue of the target that was seen, under that queue's ID |
| Rounds.RoutedAreScaledIff | internal/planner/planner.go:384-418 | Current, target and ramping versions are scaled if and only if their size is not the spec's, and to that |
| Rounds.InactiveAreScaledIff | internal/planner/planner.go:407-418 | Another Inactive version is scaled if and only if it has replicas, and to none |
| Rounds.DrainedAreScaledIff | internal/planner/planner.go:427-437 | A drained version is scaled if and only if it has replicas and has been drained longer than the scale-down delay, counted from the whole second, and to none |
| Rounds.OthersAreNotScaled | internal/planner/planner.go:405-439 | Draining and unregistered versions are left at their size |
| Rounds.EligibleIff | internal/controller/state_mapper.go:160-163 | A version no longer counts against the cap if and only if it is unrouted and drained, has no pods left, and the server says that its queues have no versioned pollers |
| Rounds.CreatedIff | internal/planner/planner.go:445-467 | The target's Deployment is created if and only if it has none and fewer versions count than the cap |
| Rounds.UpdatedIff | internal/planner/planner.go:283-330 | A Deployment is updated if and only if it is the target's and its template drifted, or it is of a version seen or routed to and its connection drifted |
| Rounds.UpdateEveryVersion | internal/planner/planner.go:283-330 | After the updates no Deployment of any version in the status has an old connection, the target's no old template, and one without drift is as it was |
| RoutingProtocol.ChangeNeedsOwnership | internal/controller/genplan.go:84-91 | A change is decided on only over a description that was found, carries its token, and needs a last writer who leaves the routing to the controller |
| RoutingProtocol.CommitsOnlyOverWhatItMayRoute | internal/controller/execplan.go:137-162 | In every interleaving a routing write takes effect only over the config its own reconcile described, with that description's token, last written by the controller, the server making room or nobody, or flagged when that reconcile looked |
| RoutingProtocol.NothingDecidedUnfound | internal/temporal/worker_deployment.go:87-93 | No routing change is issued when the deployment was not found, and every one carries a token |
| RoutingProtocol.OneCommitPerToken | internal/controller/execplan.go:140-158 | Of all changes decided on over one description, by any number of controllers, at most one takes effect |
| RoutingProtocol.FlagsGoOnlyAfterTheirUse | internal/controller/execplan.go:179-191 | Ignore flags are removed only by a reconcile that read one and whose routing change has taken effect |
| RoutingProtocol.FlagStaysIff | internal/controller/execplan.go:179-191 | Over all runs a flag stays set if and only if no removal and nobody else takes it off in between |
| RoutingProtocol.CommitListsItsFlag | internal/planner/planner.go:105-112 | A routing change made on the strength of a flag lists the flagged version for removal |
| RoutingProtocol.ListedIsCleared | internal/controller/execplan.go:179-191 | A reconcile that has come past a listed version has taken its flag off |
| RoutingProtocol.SetFlagCoversAnyEdit | internal/temporal/worker_deployment.go:111-117 | Whatever anybody writes, a reconcile that finds a version current may override it if and only if its flag is set then, and one set earlier is, unless an event took it off |
| RoutingProtocol.LeftoverFlagOverridesARollback | internal/controller/execplan.go:179-191 | A run: a routing change on a flag, a stop before its removal, a person's roll-back, and a second routing change over it on the same flag, none set in between |
| RoutingProtocol.AdvancesOnlyAfterThePause | internal/planner/planner.go:625-636 | Over all runs, whatever edits the ramp and when, a Progressive step is left for the next or for promotion only after the ramp has stood at its percentage, uninterrupted, for longer than its pause counted from the whole second of the change |

## Left out

- Kubernetes and Temporal clients, retries with backoff, pollers and caches: their answers are inputs, errors included; one clock serves controller and server.
- Poller counting (internal/temporal/worker_deployment.go:332-456): whether queues have versioned or unversioned pollers is an observed value.
- Resolution and validation of the gate's input, and the length check on the resource's name: case splits without state.
- TLS, certificates and the client pool, owner references, scheme set-up, logging, the stamp of the controller's identity on a version (a call that changes nothing else here).
- Hashes (pod template, connection, short and long build ID hash) and the image reference parser: parameters, injective only where a lemma asks for it. What DriftSeenIff says of concatenation is the source's own (internal/k8s/deployments.go:283-289).
- Namespaces, kinds and the Deployment's own annotations; a nil annotations map, which internal/planner/planner.go:149 would panic on, reads as an empty one.
- Integer widths: replica counts are naturals and durations unbounded, so the conversions of replicas to uint32 and int32 and an overflow of the sum of the two delays are not modelled. Percentages of steps are int32, ramps read from the server are reals, not float32; for whole percentages the two agree.
- Kubernetes.NewDeployment: leaves out the namespace, the Deployment's own annotations, owner references and the pod grace period.
- Planner.GetTestWorkflows: does not carry the gate's input and its secrecy flag, which are copied unread.
- Convergence.ConvergesIffNotBlocked: has one Deployment per build ID, as the controller makes them. Of two with one label only the newest is seen (Kubernetes.IndexHoldsTheNewest), and deleting it uncovers the other. Updates count as leaving replicas as they are; one that overlaps a scale of the same Deployment is refused for its stale resource version and costs another pass. A create refused for another reason than its name, such as a quota, blocks later plans in the same way.
- Kubernetes.GetDeploymentState: ignores the ordered list kept beside the map, which only logging reads.
- Controller.Reconcile: excludes the two unchecked dereferences by its preconditions, a Deployment without a replica count (the API server fills it in) and a drain time that could not be read (exactly when, Serving.DrainTimeMissingIff says); the source panics and the reconcile is tried again.
- Decisions.ScalePlanOf: scale entries are keyed by the value of the reference, which holds the Deployment's UID; the source keys them by its address.
- Lifecycle.DeletedOnlyAfterSunset: says what was so when the plan was made; replicas or routing may have changed by the time the call is made.
- Lifecycle.VersionCap: needs that no version goes from eligible back to ineligible, as when a poller returns to a drained version.
- GateRuns.NoWorkflowStartedTwice: rests on the server refusing a workflow ID it has seen; once retention has dropped a closed workflow the server would accept the ID again.
- GateRuns.CompletedExecutionTestsEveryQueue: assumes of the others that a workflow somebody else starts under a gate ID of the build runs on the queue the ID names, and that no reconcile of another build sees a queue whose ID coincides (Gate.WorkflowIDsCoincideIff says which do).
- GateRuns.RoutingChangesOnlyBehindTheGate: follows reconciles that have a gate and a described target; others plan no gate workflows.
- FreshBuild.PatchIsFreshIff: excludes a TLS volume in the user's template, since Kubernetes refuses two volumes of one name.
- RoutingProtocol.AdvancesOnlyAfterThePause: leaves out the fast track (no current version, unversioned pollers not confirmed), which promotes at once by design, and AllAtOnce.
- The documentation of ownership says a flag on the ramping version counts when there is no current version (docs/ownership.md:42-54). The code looks at the current version both times and dereferences nil in that case; the model follows the code.
- Examples in docs/configuration.md use a step of 100 percent, which the resource's schema refuses (api/v1alpha1/worker_types.go:357-358); the proofs do not depend on the upper bound.
