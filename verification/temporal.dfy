/** internal/temporal/worker_deployment.go: what a reconcile learns from the Temporal server.
    Answers of the server are inputs here; retries are folded into the last answer. */
module Temporal {
  import opened Api

  datatype WorkerVersion = WorkerVersion(deploymentName: string, buildID: BuildID)

  datatype RoutingConfig = RoutingConfig(
    current: Option<WorkerVersion>,
    ramping: Option<WorkerVersion>,
    rampPercentage: real,
    versionChangedTime: Time,
    percentageChangedTime: Time)

  datatype Drainage = Unspecified | Draining | Drained

  datatype VersionSummary = VersionSummary(version: WorkerVersion, drainage: Drainage)

  datatype Description = Description(
    routing: RoutingConfig,
    summaries: seq<VersionSummary>,
    lastModifierIdentity: string,
    conflictToken: nat)

  datatype DescribeAnswer = Described(description: Description) | DescribeNotFound | DescribeFailed

  /** The outcome of asking, with backoff, since when a version has been drained. */
  datatype DrainAnswer = DrainedAt(since: Time, noVersionedPollers: bool) | DrainNotFound | DrainFailed

  /** The ignore-last-modifier entry in the metadata of a version. */
  datatype FlagAnswer = FlagValue(value: string) | FlagAbsent | FlagFailed

  datatype ObserveError = DescribeError | FlagError | NilDereference

  /** Everything else the server is asked while observing. */
  datatype Answers = Answers(
    drain: BuildID -> DrainAnswer,
    flag: BuildID -> FlagAnswer,
    allQueuesHaveUnversionedPoller: bool)

  /** What classifying a version depends on besides its summary: the routing config, the answers,
      the pod counts of the managed Deployments, the target and the strategy. */
  datatype Context = Context(
    routing: RoutingConfig,
    answers: Answers,
    podsOf: map<BuildID, nat>,
    target: BuildID,
    strategy: UpdateStrategy)

  datatype VersionInfo = VersionInfo(
    deploymentName: string,
    buildID: BuildID,
    status: VersionStatus,
    drainedSince: Option<Time>,
    taskQueues: seq<string>,
    testWorkflows: seq<WorkflowExecution>,
    allTaskQueuesHaveUnversionedPoller: bool,
    noTaskQueuesHaveVersionedPoller: bool)

  /** The value of a TemporalWorkerState. */
  datatype TemporalState = TemporalState(
    currentBuildID: BuildID,
    rampingBuildID: BuildID,
    rampPercentage: real,
    rampingSince: Option<Time>,
    rampLastModifiedAt: Option<Time>,
    conflictToken: Option<nat>,
    lastModifierIdentity: string,
    ignoreLastModifier: bool,
    versions: map<BuildID, VersionInfo>)

  const NOTHING_OBSERVED := TemporalState("", "", 0.0, None, None, None, "", false, map[])

  class TemporalWorkerState {
    var currentBuildID: BuildID
    var rampingBuildID: BuildID
    var rampPercentage: real
    var rampingSince: Option<Time>
    var rampLastModifiedAt: Option<Time>
    var conflictToken: Option<nat>
    var lastModifierIdentity: string
    var ignoreLastModifier: bool
    var versions: map<BuildID, VersionInfo>

    constructor ()
      ensures Value() == NOTHING_OBSERVED
    {
      currentBuildID, rampingBuildID, rampPercentage := "", "", 0.0;
      rampingSince, rampLastModifiedAt, conflictToken, lastModifierIdentity, ignoreLastModifier, versions := None,
        None, None, "", false, map[];
    }

    function Value(): TemporalState
      reads this
    {
      TemporalState(currentBuildID, rampingBuildID, rampPercentage, rampingSince, rampLastModifiedAt,
                    conflictToken, lastModifierIdentity, ignoreLastModifier, versions)
    }

    /** The loop over the version summaries. */
    method FillVersions(summaries: seq<VersionSummary>, c: Context)
      requires versions == map[]
      modifies this
      ensures Value() == old(Value()).(versions := VersionsOf(summaries, c))
    {
      for i := 0 to |summaries|
        invariant Value() == old(Value()).(versions := VersionsOf(summaries[..i], c))
      {
        var info := ClassifyVersion(summaries[i], c);
        assert summaries[..i + 1][..i] == summaries[..i];
        versions := versions[summaries[i].version.buildID := info];
      }
      assert summaries[..|summaries|] == summaries;
    }
  }

  function BuildIDOf(v: Option<WorkerVersion>): BuildID {
    if v.Some? then v.value.buildID else ""
  }

  /** Where a registered version stands. Routing decides first, drainage second; a drained version
      that the server no longer knows counts as not registered. */
  function StatusOf(s: VersionSummary, routing: RoutingConfig, drain: BuildID -> DrainAnswer): VersionStatus {
    if routing.current == Some(s.version) then VersionStatus.Current
    else if routing.ramping == Some(s.version) then VersionStatus.Ramping
    else match s.drainage
      case Unspecified => Inactive
      case Draining => VersionStatus.Draining
      case Drained => if drain(s.version.buildID) == DrainNotFound then NotRegistered else VersionStatus.Drained
  }

  function InfoOf(s: VersionSummary, c: Context): (info: VersionInfo)
    ensures info.status == VersionStatus.Drained && info.drainedSince.None? <==>
            StatusOf(s, c.routing, c.answers.drain) == VersionStatus.Drained
              && c.answers.drain(s.version.buildID).DrainFailed?
  {
    var b := s.version.buildID;
    var status := StatusOf(s, c.routing, c.answers.drain);
    var answer := c.answers.drain(b);
    var drained := status == VersionStatus.Drained && answer.DrainedAt?;
    VersionInfo(
      s.version.deploymentName, b, status,
      if drained then Some(answer.since) else None,
      [], [],
      status == Inactive && b == c.target && c.routing.current.None? && c.strategy == Progressive
      && c.answers.allQueuesHaveUnversionedPoller,
      drained && (b !in c.podsOf || c.podsOf[b] == 0) && answer.noVersionedPollers)
  }

  function VersionsOf(summaries: seq<VersionSummary>, c: Context): map<BuildID, VersionInfo> {
    if summaries == [] then map[] else
    var last := summaries[|summaries| - 1];
    VersionsOf(summaries[..|summaries| - 1], c)[last.version.buildID := InfoOf(last, c)]
  }

  function ReadFlag(flag: FlagAnswer): Result<bool, ObserveError> {
    match flag
    case FlagValue(s) => Ok(s == "true")
    case FlagAbsent => Ok(false)
    case FlagFailed => Err(FlagError)
  }

  /** DeploymentShouldIgnoreLastModifier. The fallback for a ramping version looks up the current
      version once more, so a flag on the ramping version alone is never seen, and with no current
      version the look-up dereferences nil. */
  function ShouldIgnoreLastModifier(routing: RoutingConfig, flag: BuildID -> FlagAnswer): (r: Result<bool,
                                    ObserveError>)
    ensures r == Ok(true) <==> routing.current.Some? && flag(routing.current.value.buildID) == FlagValue("true")
    ensures r == Err(NilDereference) <==> routing.current.None? && routing.ramping.Some?
  {
    var first := if routing.current.Some? then ReadFlag(flag(routing.current.value.buildID)) else Ok(false);
    if first.Ok? && !first.value && routing.ramping.Some? then
      if routing.current.None? then Err(NilDereference) else ReadFlag(flag(routing.current.value.buildID))
    else first
  }

  /** Whether the flag is looked at: only when somebody else wrote the routing config last. */
  function IgnoreLastModifier(d: Description, flag: BuildID -> FlagAnswer, controllerIdentity: string)
    : Result<bool, ObserveError>
  {
    if d.lastModifierIdentity != controllerIdentity && d.lastModifierIdentity != "" then
      ShouldIgnoreLastModifier(d.routing, flag)
    else Ok(false)
  }

  function ObservedState(d: Description, ignore: bool, c: Context): TemporalState {
    TemporalState(
      BuildIDOf(d.routing.current), BuildIDOf(d.routing.ramping), d.routing.rampPercentage,
      if d.routing.ramping.Some? then Some(d.routing.versionChangedTime) else None,
      if d.routing.ramping.Some? then Some(d.routing.percentageChangedTime) else None,
      Some(d.conflictToken), d.lastModifierIdentity, ignore,
      VersionsOf(d.summaries, c))
  }

  /** The body of the loop over the version summaries. */
  method ClassifyVersion(s: VersionSummary, c: Context) returns (info: VersionInfo)
    ensures info == InfoOf(s, c)
  {
    var version := s.version;
    info := VersionInfo(version.deploymentName, version.buildID, NotRegistered, None, [], [], false, false);
    if c.routing.current.Some? && version == c.routing.current.value {
      info := info.(status := VersionStatus.Current);
    } else if c.routing.ramping.Some? && version == c.routing.ramping.value {
      info := info.(status := VersionStatus.Ramping);
    } else if s.drainage.Draining? {
      info := info.(status := VersionStatus.Draining);
    } else if s.drainage.Drained? {
      info := info.(status := VersionStatus.Drained);
      var answer := c.answers.drain(version.buildID);
      if answer.DrainedAt? {
        info := info.(drainedSince := Some(answer.since));
        if version.buildID !in c.podsOf || c.podsOf[version.buildID] == 0 {
          info := info.(noTaskQueuesHaveVersionedPoller := answer.noVersionedPollers);
        }
      } else if answer.DrainNotFound? {
        info := info.(status := NotRegistered);
      }
    } else {
      info := info.(status := Inactive);
      if version.buildID == c.target && c.routing.current.None? && c.strategy == Progressive {
        info := info.(allTaskQueuesHaveUnversionedPoller := c.answers.allQueuesHaveUnversionedPoller);
      }
    }
  }

  /** GetWorkerDeploymentState. */
  method GetWorkerDeploymentState(describe: DescribeAnswer, answers: Answers, podsOf: map<BuildID, nat>,
                                  target: BuildID, strategy: UpdateStrategy, controllerIdentity: string)
    returns (r: Result<TemporalWorkerState, ObserveError>)
    ensures r.Ok? ==> fresh(r.value)
    ensures describe.DescribeFailed? ==> r == Err(DescribeError)
    ensures describe.DescribeNotFound? ==> r.Ok? && r.value.Value() == NOTHING_OBSERVED
    ensures describe.Described? ==>
              var d := describe.description;
              var ignore := IgnoreLastModifier(d, answers.flag, controllerIdentity);
              if ignore.Err? then r == Err(ignore.error)
              else r.Ok? && r.value.Value()
                            == ObservedState(d, ignore.value, Context(d.routing, answers, podsOf, target, strategy))
  {
    var state := new TemporalWorkerState();
    if describe.DescribeNotFound? {
      return Ok(state);
    }
    if describe.DescribeFailed? {
      return Err(DescribeError);
    }
    var d := describe.description;
    if d.routing.current.Some? {
      state.currentBuildID := d.routing.current.value.buildID;
    }
    if d.routing.ramping.Some? {
      state.rampingBuildID := d.routing.ramping.value.buildID;
    }
    state.rampPercentage := d.routing.rampPercentage;
    state.lastModifierIdentity := d.lastModifierIdentity;
    state.conflictToken := Some(d.conflictToken);

    if state.lastModifierIdentity != controllerIdentity && state.lastModifierIdentity != "" {
      var ignore := ShouldIgnoreLastModifier(d.routing, answers.flag);
      if ignore.Err? {
        return Err(ignore.error);
      }
      state.ignoreLastModifier := ignore.value;
    }
    if d.routing.ramping.Some? {
      state.rampingSince := Some(d.routing.versionChangedTime);
      state.rampLastModifiedAt := Some(d.routing.percentageChangedTime);
    }

    state.FillVersions(d.summaries, Context(d.routing, answers, podsOf, target, strategy));
    r := Ok(state);
  }

  ghost predicate UniqueBuildIDs(summaries: seq<VersionSummary>) {
    forall i, j :: 0 <= i < j < |summaries| ==> summaries[i].version.buildID != summaries[j].version.buildID
  }

  /** A version is in the map exactly when it is summarized, and as one of its summaries classifies it. */
  lemma {:induction false} VersionsAreSummarized(summaries: seq<VersionSummary>, c: Context, b: BuildID)
    ensures b in VersionsOf(summaries, c) <==>
            exists i :: 0 <= i < |summaries| && summaries[i].version.buildID == b
    ensures b in VersionsOf(summaries, c) ==>
              exists i :: 0 <= i < |summaries| && summaries[i].version.buildID == b
                          && VersionsOf(summaries, c)[b] == InfoOf(summaries[i], c)
  {
    if summaries != [] {
      var last := |summaries| - 1;
      var front := summaries[..last];
      VersionsAreSummarized(front, c, b);
      if summaries[last].version.buildID != b {
        if b in VersionsOf(front, c) {
          var i :| 0 <= i < |front| && front[i].version.buildID == b && VersionsOf(front, c)[b] == InfoOf(front[i], c);
          assert summaries[i] == front[i];
        } else {
          assert forall i :: 0 <= i < last ==> summaries[i] == front[i];
        }
      }
    }
  }

  /** With one summary per build ID the classification of each summary stands. */
  lemma {:induction false} EachSummaryStands(summaries: seq<VersionSummary>, c: Context, i: nat)
    requires UniqueBuildIDs(summaries) && i < |summaries|
    ensures summaries[i].version.buildID in VersionsOf(summaries, c)
    ensures VersionsOf(summaries, c)[summaries[i].version.buildID] == InfoOf(summaries[i], c)
  {
    var b := summaries[i].version.buildID;
    VersionsAreSummarized(summaries, c, b);
    var k :| 0 <= k < |summaries| && summaries[k].version.buildID == b
      && VersionsOf(summaries, c)[b] == InfoOf(summaries[k], c);
    assert k == i;
  }
}
