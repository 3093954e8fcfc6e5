/** The resource types the controller works on: api/v1alpha1/worker_types.go, restricted to the
    fields its decisions read. Times and durations are whole nanoseconds. */
module Api {
  datatype Option<+T> = None | Some(value: T)

  datatype Result<+T, +E> = Ok(value: T) | Err(error: E)

  type Time = int
  type Duration = int
  type BuildID = string
  type int32 = x: int | -0x8000_0000 <= x < 0x8000_0000

  const SECOND: Duration := 1_000_000_000
  const HOUR: Duration := 3600 * SECOND

  datatype VersionStatus = NotRegistered | Inactive | Ramping | Current | Draining | Drained

  datatype UpdateStrategy = Manual | AllAtOnce | Progressive

  /** The CRD bounds rampPercentage to [1,99], so the source's conversions to int32 and float32
      are exact. */
  datatype RolloutStep = RolloutStep(rampPercentage: int32, pauseDuration: Duration)

  /** The gate is the workflow type to run; its input is not part of this model. */
  datatype RolloutStrategy = RolloutStrategy(strategy: UpdateStrategy, gate: Option<string>, steps: seq<RolloutStep>)

  datatype WorkflowStatus = Running | Completed | Failed | Canceled | Terminated | TimedOut

  datatype WorkflowExecution = WorkflowExecution(workflowID: string, status: WorkflowStatus, taskQueue: string)

  /** corev1.ObjectReference. Every Deployment object has its own UID. */
  datatype ObjectReference = ObjectReference(name: string, uid: nat)

  /** The time as the API server stores it: metav1.Time keeps whole seconds. */
  function WholeSecond(t: Time): (r: Time)
    ensures r <= t < r + SECOND && r % SECOND == 0
    ensures r == t <==> t % SECOND == 0
  {
    t - t % SECOND
  }

  datatype CurrentVersion = CurrentVersion(
    buildID: BuildID,
    status: VersionStatus,
    healthySince: Option<Time>,
    deployment: Option<ObjectReference>,
    taskQueues: seq<string>)

  datatype TargetVersion = TargetVersion(
    buildID: BuildID,
    status: VersionStatus,
    healthySince: Option<Time>,
    deployment: Option<ObjectReference>,
    taskQueues: seq<string>,
    testWorkflows: seq<WorkflowExecution>,
    rampPercentage: Option<real>,
    rampingSince: Option<Time>,
    rampLastModifiedAt: Option<Time>)

  datatype DeprecatedVersion = DeprecatedVersion(
    buildID: BuildID,
    status: VersionStatus,
    healthySince: Option<Time>,
    deployment: Option<ObjectReference>,
    taskQueues: seq<string>,
    drainedSince: Option<Time>,
    eligibleForDeletion: bool)

  /** TemporalWorkerDeploymentStatus. A conflict token of None is the empty token, which the
      server does not compare with anything. */
  datatype Status = Status(
    current: Option<CurrentVersion>,
    target: TargetVersion,
    deprecated: seq<DeprecatedVersion>,
    conflictToken: Option<nat>,
    lastModifierIdentity: string,
    versionCount: nat)

  /** The part of the spec that sizes and sunsets Deployments; all three are set once the CRD
      defaults and Default have run. */
  datatype Sizing = Sizing(replicas: nat, scaledownDelay: Duration, deleteDelay: Duration)
}
