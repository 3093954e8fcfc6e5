/** internal/planner/planner.go: what to delete, scale, create, test and route, given the status. */
module Planner {
  import opened Api
  import opened Kubernetes
  import opened Rollout
  import T = Temporal

  /** The pointers the planner follows without checking: the drain time and the replica count of
      every drained version that still has a Deployment. */
  predicate DrainKnown(v: DeprecatedVersion, view: View) {
    v.status == Drained && v.deployment.Some? && v.buildID in view ==>
      v.drainedSince.Some? && view[v.buildID].replicas.Some?
  }

  predicate AllDrainsKnown(list: seq<DeprecatedVersion>, view: View) {
    forall i :: 0 <= i < |list| ==> DrainKnown(list[i], view)
  }

  // Deleting

  predicate Deletes(v: DeprecatedVersion, view: View, sizing: Sizing, found: bool, targetID: BuildID, now: Time)
    requires DrainKnown(v, view)
  {
    && v.deployment.Some?
    && v.buildID in view
    && match v.status
       case Drained => now - v.drainedSince.value > sizing.deleteDelay + sizing.scaledownDelay
         && view[v.buildID].replicas.value == 0
       case NotRegistered => found && targetID != v.buildID
       case _ => false
  }

  function DeletePlan(list: seq<DeprecatedVersion>, view: View, sizing: Sizing, found: bool, targetID: BuildID,
                      now: Time): seq<BuildID>
    requires AllDrainsKnown(list, view)
  {
    if list == [] then [] else
    var last := list[|list| - 1];
    DeletePlan(list[..|list| - 1], view, sizing, found, targetID, now)
    + if Deletes(last, view, sizing, found, targetID, now) then [last.buildID] else []
  }

  lemma {:induction false} DeletePlanGrows(list: seq<DeprecatedVersion>, i: nat, view: View, sizing: Sizing,
                                           found: bool, targetID: BuildID, now: Time)
    requires AllDrainsKnown(list, view) && i < |list|
    ensures DrainKnown(list[i], view)
    ensures DeletePlan(list[..i + 1], view, sizing, found, targetID, now)
            == DeletePlan(list[..i], view, sizing, found, targetID, now)
               + if Deletes(list[i], view, sizing, found, targetID, now) then [list[i].buildID] else []
  {
    assert list[..i + 1][..i] == list[..i];
  }

  /** getDeleteDeployments. */
  method GetDeleteDeployments(k8s: DeploymentState, status: Status, sizing: Sizing, found: bool, now: Time)
    returns (deletes: seq<Deployment>, ghost builds: seq<BuildID>)
    requires k8s.Valid() && AllDrainsKnown(status.deprecated, k8s.View())
    ensures builds == DeletePlan(status.deprecated, k8s.View(), sizing, found, status.target.buildID, now)
    ensures |deletes| == |builds|
    ensures forall i :: 0 <= i < |builds| ==> builds[i] in k8s.deployments && deletes[i] == k8s.deployments[builds[i]]
  {
    deletes, builds := [], [];
    ghost var view, target := k8s.View(), status.target.buildID;
    for i := 0 to |status.deprecated|
      invariant builds == DeletePlan(status.deprecated[..i], view, sizing, found, target, now)
      invariant |deletes| == |builds|
      invariant forall k :: 0 <= k < |builds| ==>
                  builds[k] in k8s.deployments && deletes[k] == k8s.deployments[builds[k]]
    {
      var version := status.deprecated[i];
      DeletePlanGrows(status.deprecated, i, view, sizing, found, target, now);
      if version.deployment.None? || version.buildID !in k8s.deployments {
        continue;
      }
      var d := k8s.deployments[version.buildID];
      match version.status {
        case Drained =>
          if now - version.drainedSince.value > sizing.deleteDelay + sizing.scaledownDelay && d.replicas.value == 0 {
            deletes, builds := deletes + [d], builds + [version.buildID];
          }
        case NotRegistered =>
          if found && status.target.buildID != version.buildID {
            deletes, builds := deletes + [d], builds + [version.buildID];
          }
        case _ =>
      }
    }
    assert status.deprecated[..|status.deprecated|] == status.deprecated;
  }

  // Scaling

  function Unless(replicas: Option<nat>, wanted: nat): Option<nat> {
    if replicas.Some? && replicas.value != wanted then Some(wanted) else None
  }

  /** The size a deprecated version's Deployment should be set to, if any. */
  function ScaleOf(v: DeprecatedVersion, view: View, sizing: Sizing, targetID: BuildID, now: Time): Option<nat>
    requires DrainKnown(v, view)
  {
    if v.deployment.None? || v.buildID !in view then None else
    var replicas := view[v.buildID].replicas;
    match v.status
    case Inactive => Unless(replicas, if targetID == v.buildID then sizing.replicas else 0)
    case Ramping => Unless(replicas, sizing.replicas)
    case Current => Unless(replicas, sizing.replicas)
    case Drained => if now - v.drainedSince.value > sizing.scaledownDelay then Unless(replicas, 0) else None
    case NotRegistered => None
    case Draining => None
  }

  function ScaleDeprecated(list: seq<DeprecatedVersion>, view: View, sizing: Sizing, targetID: BuildID, now: Time,
                           scales: map<ObjectReference, nat>): map<ObjectReference, nat>
    requires AllDrainsKnown(list, view)
  {
    if list == [] then scales else
    var last := list[|list| - 1];
    var before := ScaleDeprecated(list[..|list| - 1], view, sizing, targetID, now, scales);
    var size := ScaleOf(last, view, sizing, targetID, now);
    if size.Some? then before[last.deployment.value := size.value] else before
  }

  function ScaleCurrent(status: Status, view: View, sizing: Sizing): map<ObjectReference, nat> {
    if status.current.Some? && status.current.value.deployment.Some? && status.current.value.buildID in view
       && Unless(view[status.current.value.buildID].replicas, sizing.replicas).Some?
    then map[status.current.value.deployment.value := sizing.replicas]
    else map[]
  }

  /** Unlike the others, a target without a replica count is scaled. */
  function ScaleTarget(status: Status, view: View, sizing: Sizing, scales: map<ObjectReference,
                       nat>): map<ObjectReference, nat> {
    if (status.current.None? || status.current.value.buildID != status.target.buildID)
       && status.target.deployment.Some? && status.target.buildID in view
       && view[status.target.buildID].replicas != Some(sizing.replicas)
    then scales[status.target.deployment.value := sizing.replicas]
    else scales
  }

  function ScalePlan(status: Status, view: View, sizing: Sizing, now: Time): map<ObjectReference, nat>
    requires AllDrainsKnown(status.deprecated, view)
  {
    ScaleDeprecated(status.deprecated, view, sizing, status.target.buildID, now,
                    ScaleTarget(status, view, sizing, ScaleCurrent(status, view, sizing)))
  }

  lemma {:induction false} ScaleDeprecatedGrows(list: seq<DeprecatedVersion>, i: nat, view: View, sizing: Sizing,
                                                targetID: BuildID, now: Time,
                                                base: map<ObjectReference, nat>)
    requires AllDrainsKnown(list, view) && i < |list|
    ensures DrainKnown(list[i], view)
    ensures var before, size := ScaleDeprecated(list[..i], view, sizing, targetID, now, base),
            ScaleOf(list[i], view, sizing, targetID, now);
            ScaleDeprecated(list[..i + 1], view, sizing, targetID, now, base)
            == if size.Some? then before[list[i].deployment.value := size.value] else before
  {
    assert list[..i + 1][..i] == list[..i];
  }

  /** getScaleDeployments. */
  method GetScaleDeployments(k8s: DeploymentState, status: Status, sizing: Sizing, now: Time)
    returns (scales: map<ObjectReference, nat>)
    requires k8s.Valid() && AllDrainsKnown(status.deprecated, k8s.View())
    ensures scales == ScalePlan(status, k8s.View(), sizing, now)
  {
    ghost var view, targetID := k8s.View(), status.target.buildID;
    scales := ScaleCurrentAndTarget(k8s, status, sizing);
    ghost var base := scales;
    for i := 0 to |status.deprecated|
      invariant scales == ScaleDeprecated(status.deprecated[..i], view, sizing, targetID, now, base)
    {
      var version := status.deprecated[i];
      ScaleDeprecatedGrows(status.deprecated, i, view, sizing, targetID, now, base);
      var size := ScaleVersion(k8s, version, sizing, status.target.buildID, now);
      if size.Some? {
        scales := scales[version.deployment.value := size.value];
      }
    }
    assert status.deprecated[..|status.deprecated|] == status.deprecated;
  }

  method ScaleCurrentAndTarget(k8s: DeploymentState, status: Status, sizing: Sizing)
    returns (scales: map<ObjectReference, nat>)
    requires k8s.Valid()
    ensures scales == ScaleTarget(status, k8s.View(), sizing, ScaleCurrent(status, k8s.View(), sizing))
  {
    scales := map[];
    if status.current.Some? && status.current.value.deployment.Some?
      && status.current.value.buildID in k8s.deployments {
      var d := k8s.deployments[status.current.value.buildID];
      if d.replicas.Some? && d.replicas.value != sizing.replicas {
        scales := scales[status.current.value.deployment.value := sizing.replicas];
      }
    }
    assert scales == ScaleCurrent(status, k8s.View(), sizing);
    if (status.current.None? || status.current.value.buildID != status.target.buildID)
       && status.target.deployment.Some? && status.target.buildID in k8s.deployments {
      var d := k8s.deployments[status.target.buildID];
      if d.replicas.None? || d.replicas.value != sizing.replicas {
        scales := scales[status.target.deployment.value := sizing.replicas];
      }
    }
  }

  /** The body of the loop over the deprecated versions. */
  method ScaleVersion(k8s: DeploymentState, version: DeprecatedVersion, sizing: Sizing, targetID: BuildID, now: Time)
    returns (size: Option<nat>)
    requires k8s.Valid() && DrainKnown(version, k8s.View())
    ensures size == ScaleOf(version, k8s.View(), sizing, targetID, now)
  {
    size := None;
    if version.deployment.None? || version.buildID !in k8s.deployments {
      return;
    }
    var d := k8s.deployments[version.buildID];
    match version.status {
      case Inactive =>
        if targetID == version.buildID {
          if d.replicas.Some? && d.replicas.value != sizing.replicas {
            size := Some(sizing.replicas);
          }
        } else if d.replicas.Some? && d.replicas.value != 0 {
          size := Some(0);
        }
      case Ramping | Current =>
        if d.replicas.Some? && d.replicas.value != sizing.replicas {
          size := Some(sizing.replicas);
        }
      case Drained =>
        if now - version.drainedSince.value > sizing.scaledownDelay {
          if d.replicas.Some? && d.replicas.value != 0 {
            size := Some(0);
          }
        }
      case _ =>
    }
  }

  // Creating

  function CountIneligible(list: seq<DeprecatedVersion>): nat {
    if list == [] then 0 else
    CountIneligible(list[..|list| - 1]) + if list[|list| - 1].eligibleForDeletion then 0 else 1
  }

  /** shouldCreateDeployment. */
  method ShouldCreateDeployment(status: Status, maxIneligible: int) returns (create: bool)
    ensures create <==> status.target.deployment.None? && CountIneligible(status.deprecated) < maxIneligible
  {
    if status.target.deployment.Some? {
      return false;
    }
    var count := 0;
    for i := 0 to |status.deprecated|
      invariant count == CountIneligible(status.deprecated[..i])
    {
      assert status.deprecated[..i + 1][..i] == status.deprecated[..i];
      if !status.deprecated[i].eligibleForDeletion {
        count := count + 1;
      }
    }
    assert status.deprecated[..|status.deprecated|] == status.deprecated;
    return count < maxIneligible;
  }

  // Gate workflows

  datatype WorkflowConfig = WorkflowConfig(workflowType: string, workflowID: string, buildID: BuildID,
      taskQueue: string)

  /** temporal.GetTestWorkflowID. */
  function TestWorkflowID(deploymentName: string, buildID: BuildID, taskQueue: string): string {
    "test-" + deploymentName + ":" + buildID + "-" + taskQueue
  }

  function CoveredQueues(workflows: seq<WorkflowExecution>): set<string> {
    set wf | wf in workflows :: wf.taskQueue
  }

  function MissingTests(queues: seq<string>, covered: set<string>, gate: string, deploymentName: string,
                        buildID: BuildID): seq<WorkflowConfig> {
    if queues == [] then [] else
    var last := queues[|queues| - 1];
    MissingTests(queues[..|queues| - 1], covered, gate, deploymentName, buildID)
    + if last in covered then [] else [WorkflowConfig(gate, TestWorkflowID(deploymentName, buildID, last), buildID,
        last)]
  }

  function TestPlan(status: Status, strategy: RolloutStrategy, deploymentName: string): seq<WorkflowConfig> {
    if strategy.gate.None?
       || (status.current.Some? && status.current.value.buildID == status.target.buildID)
       || status.target.status == NotRegistered
    then []
    else MissingTests(status.target.taskQueues, CoveredQueues(status.target.testWorkflows), strategy.gate.value,
                      deploymentName, status.target.buildID)
  }

  /** getTestWorkflows. */
  method GetTestWorkflows(status: Status, strategy: RolloutStrategy, deploymentName: string)
    returns (tests: seq<WorkflowConfig>)
    ensures tests == TestPlan(status, strategy, deploymentName)
  {
    if strategy.gate.None?
       || (status.current.Some? && status.current.value.buildID == status.target.buildID)
       || status.target.status == NotRegistered
    {
      return [];
    }
    var target := status.target;
    var covered: set<string> := {};
    for i := 0 to |target.testWorkflows|
      invariant covered == CoveredQueues(target.testWorkflows[..i])
    {
      covered := covered + {target.testWorkflows[i].taskQueue};
    }
    assert target.testWorkflows[..|target.testWorkflows|] == target.testWorkflows;
    tests := [];
    for i := 0 to |target.taskQueues|
      invariant tests == MissingTests(target.taskQueues[..i], covered, strategy.gate.value, deploymentName,
          target.buildID)
    {
      var queue := target.taskQueues[i];
      assert target.taskQueues[..i + 1][..i] == target.taskQueues[..i];
      if queue !in covered {
        tests := tests + [WorkflowConfig(strategy.gate.value, TestWorkflowID(deploymentName, target.buildID, queue),
            target.buildID, queue)];
      }
    }
    assert target.taskQueues[..|target.taskQueues|] == target.taskQueues;
  }

  // Routing

  predicate GatePassed(target: TargetVersion) {
    && |target.taskQueues| > 0
    && |target.testWorkflows| >= |target.taskQueues|
    && forall i :: 0 <= i < |target.testWorkflows| ==> target.testWorkflows[i].status == Completed
  }

  /** The entry the fast-track test looks up without checking. */
  predicate TargetEntryPresent(status: Status, ts: T.TemporalState) {
    status.current.None? && status.target.status == Inactive ==> status.target.buildID in ts.versions
  }

  predicate FastTracked(status: Status, ts: T.TemporalState)
    requires TargetEntryPresent(status, ts)
  {
    && status.current.None?
    && status.target.status == Inactive
    && !ts.versions[status.target.buildID].allTaskQueuesHaveUnversionedPoller
  }

  /** The change getVersionConfigDiff asks for. */
  function VersionDiff(status: Status, ts: T.TemporalState, strategy: RolloutStrategy, now: Time): Option<RoutingChange>
    requires TargetEntryPresent(status, ts)
  {
    var target := status.target;
    var change := RoutingChange(status.conflictToken, target.buildID, false, 0);
    if strategy.strategy == Manual || target.healthySince.None? || target.status == NotRegistered
       || (strategy.gate.Some? && !GatePassed(target)) then None
    else if FastTracked(status, ts) then Some(change.(setCurrent := true))
    else if status.current.Some? && status.current.value.buildID == target.buildID then
      if ts.rampingBuildID != "" then Some(change.(buildID := "")) else None
    else if strategy.strategy == AllAtOnce then Some(change.(setCurrent := true))
    else match ProgressiveDecision(strategy.steps, now, target.rampLastModifiedAt, target.rampPercentage)
      case Hold => None
      case SetRamp(p) => Some(change.(rampPercentage := p))
      case Promote => Some(change.(setCurrent := true))
  }

  lemma {:induction false} ChangeCarriesToken(status: Status, ts: T.TemporalState, strategy: RolloutStrategy, now: Time)
    requires TargetEntryPresent(status, ts) && VersionDiff(status, ts, strategy, now).Some?
    ensures strategy.strategy != Manual && status.target.status != NotRegistered
    ensures VersionDiff(status, ts, strategy, now).value.conflictToken == status.conflictToken
  {
  }

  function ChangeOf(vcfg: VersionConfig?): Option<RoutingChange>
    reads vcfg
  {
    if vcfg == null then None else Some(vcfg.Change())
  }

  /** getVersionConfigDiff. */
  method GetVersionConfigDiff(status: Status, state: T.TemporalWorkerState, strategy: RolloutStrategy, now: Time)
    returns (vcfg: VersionConfig?)
    requires TargetEntryPresent(status, state.Value())
    ensures vcfg != null ==> fresh(vcfg)
    ensures ChangeOf(vcfg) == VersionDiff(status, state.Value(), strategy, now)
  {
    if strategy.strategy == Manual {
      return null;
    }
    if status.target.healthySince.None? || status.target.status == NotRegistered {
      return null;
    }
    if strategy.gate.Some? {
      if |status.target.taskQueues| == 0 {
        return null;
      }
      if |status.target.testWorkflows| < |status.target.taskQueues| {
        return null;
      }
      for i := 0 to |status.target.testWorkflows|
        invariant forall k :: 0 <= k < i ==> status.target.testWorkflows[k].status == Completed
      {
        if status.target.testWorkflows[i].status != Completed {
          return null;
        }
      }
    }
    vcfg := new VersionConfig(status.conflictToken, status.target.buildID);
    if status.current.None? && status.target.status == Inactive
       && !state.versions[status.target.buildID].allTaskQueuesHaveUnversionedPoller {
      vcfg.setCurrent := true;
      return;
    }
    if status.current.Some? && status.current.value.buildID == status.target.buildID {
      if state.rampingBuildID != "" {
        vcfg.buildID := "";
        vcfg.rampPercentage := 0;
        return;
      }
      return null;
    }
    match strategy.strategy {
      case Manual => return null;
      case AllAtOnce =>
        vcfg.setCurrent := true;
      case Progressive =>
        vcfg := HandleProgressiveRollout(strategy.steps, now, status.target.rampLastModifiedAt,
            status.target.rampPercentage, vcfg);
    }
  }
}
