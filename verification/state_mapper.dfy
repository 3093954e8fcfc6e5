/** internal/controller/state_mapper.go: from the two observed states to the resource status. */
module StateMapper {
  import opened Api
  import opened Kubernetes
  import T = Temporal

  function StatusIn(b: BuildID, ts: T.TemporalState): VersionStatus {
    if b in ts.versions then ts.versions[b].status else NotRegistered
  }

  function RefIn(b: BuildID, view: View): Option<ObjectReference> {
    if b in view then Some(view[b].ref) else None
  }

  function HealthIn(b: BuildID, view: View): Option<Time> {
    if b in view then view[b].healthySince else None
  }

  function QueuesIn(b: BuildID, ts: T.TemporalState): seq<string> {
    if b in ts.versions then ts.versions[b].taskQueues else []
  }

  function MapCurrent(b: BuildID, view: View, ts: T.TemporalState): Option<CurrentVersion> {
    if b == "" then None else
    Some(CurrentVersion(b, StatusIn(b, ts), HealthIn(b, view), RefIn(b, view), QueuesIn(b, ts)))
  }

  /** The target before MapToStatus adds the ramp. */
  function MapTarget(b: BuildID, view: View, ts: T.TemporalState): TargetVersion {
    if b == "" then TargetVersion("", NotRegistered, None, None, [], [], None, None, None) else
    TargetVersion(
      b, StatusIn(b, ts), HealthIn(b, view), RefIn(b, view),
      QueuesIn(b, ts),
      if b in ts.versions then ts.versions[b].testWorkflows else [],
      if StatusIn(b, ts) == Ramping && ts.rampPercentage > 0.0 then Some(ts.rampPercentage) else None,
      None, None)
  }

  function MapTargetWithRamp(b: BuildID, view: View, ts: T.TemporalState): TargetVersion {
    var v := MapTarget(b, view, ts);
    if ts.rampingBuildID == b then
      v.(rampPercentage := Some(ts.rampPercentage), rampingSince := ts.rampingSince,
          rampLastModifiedAt := ts.rampLastModifiedAt)
    else v
  }

  predicate Eligible(b: BuildID, ts: T.TemporalState) {
    b in ts.versions && ts.versions[b].status == Drained && ts.versions[b].noTaskQueuesHaveVersionedPoller
  }

  function MapDeprecated(b: BuildID, view: View, ts: T.TemporalState): DeprecatedVersion {
    DeprecatedVersion(b, StatusIn(b, ts), HealthIn(b, view), RefIn(b, view), QueuesIn(b, ts),
                      if b in ts.versions then ts.versions[b].drainedSince else None, Eligible(b, ts))
  }

  /** The build IDs that are neither current nor target. */
  ghost predicate IsDeprecated(b: BuildID, view: View, ts: T.TemporalState, target: BuildID) {
    b in view && b != "" && b != ts.currentBuildID && b != target
  }

  /** list holds each deprecated version once; in which order is up to Go's map iteration. */
  ghost predicate Enumerates(list: seq<DeprecatedVersion>, view: View, ts: T.TemporalState, target: BuildID) {
    && (forall i :: 0 <= i < |list| ==> IsDeprecated(list[i].buildID, view, ts, target)
                                        && list[i] == MapDeprecated(list[i].buildID, view, ts))
    && (forall i, j :: 0 <= i < j < |list| ==> list[i].buildID != list[j].buildID)
    && (forall b :: IsDeprecated(b, view, ts, target) ==> MapDeprecated(b, view, ts) in list)
  }

  /** The statuses that mapping the two states may produce. */
  ghost predicate IsStatus(s: Status, view: View, ts: T.TemporalState, target: BuildID) {
    && s.conflictToken == ts.conflictToken
    && s.lastModifierIdentity == ts.lastModifierIdentity
    && s.current == MapCurrent(ts.currentBuildID, view, ts)
    && s.target == MapTargetWithRamp(target, view, ts)
    && s.versionCount == |ts.versions|
    && Enumerates(s.deprecated, view, ts, target)
  }

  /** mapCurrentWorkerDeploymentVersionByBuildID. */
  method MapCurrentVersion(b: BuildID, view: View, ts: T.TemporalState) returns (version: Option<CurrentVersion>)
    ensures version == MapCurrent(b, view, ts)
  {
    if b == "" {
      return None;
    }
    var v := CurrentVersion(b, NotRegistered, None, None, []);
    if b in view {
      v := v.(deployment := Some(view[b].ref));
      if view[b].healthySince.Some? {
        v := v.(healthySince := view[b].healthySince);
      }
    }
    if b in ts.versions {
      v := v.(status := ts.versions[b].status);
      v := v.(taskQueues := v.taskQueues + ts.versions[b].taskQueues);
      assert v.taskQueues == QueuesIn(b, ts);
    }
    version := Some(v);
  }

  /** mapTargetWorkerDeploymentVersionByBuildID. */
  method MapTargetVersion(b: BuildID, view: View, ts: T.TemporalState) returns (v: TargetVersion)
    ensures v == MapTarget(b, view, ts)
  {
    v := TargetVersion(b, NotRegistered, None, None, [], [], None, None, None);
    if b == "" {
      return;
    }
    if b in view {
      v := v.(deployment := Some(view[b].ref));
      if view[b].healthySince.Some? {
        v := v.(healthySince := view[b].healthySince);
      }
    }
    if b in ts.versions {
      var info := ts.versions[b];
      v := v.(status := info.status);
      if info.status == Ramping && ts.rampPercentage > 0.0 {
        v := v.(rampPercentage := Some(ts.rampPercentage));
      }
      v := v.(taskQueues := v.taskQueues + info.taskQueues);
      v := v.(testWorkflows := v.testWorkflows + info.testWorkflows);
    }
  }

  /** mapDeprecatedWorkerDeploymentVersionByBuildID. */
  method MapDeprecatedVersion(b: BuildID, view: View, ts: T.TemporalState) returns (version: Option<DeprecatedVersion>)
    ensures version == if b == "" then None else Some(MapDeprecated(b, view, ts))
  {
    if b == "" {
      return None;
    }
    var eligible := false;
    if b in ts.versions {
      eligible := ts.versions[b].status == Drained && ts.versions[b].noTaskQueuesHaveVersionedPoller;
    }
    var v := DeprecatedVersion(b, NotRegistered, None, None, [], None, eligible);
    if b in view {
      v := v.(deployment := Some(view[b].ref));
      if view[b].healthySince.Some? {
        v := v.(healthySince := view[b].healthySince);
      }
    }
    if b in ts.versions {
      v := v.(status := ts.versions[b].status);
      if ts.versions[b].drainedSince.Some? {
        v := v.(drainedSince := ts.versions[b].drainedSince);
      }
      v := v.(taskQueues := v.taskQueues + ts.versions[b].taskQueues);
      assert v.taskQueues == QueuesIn(b, ts);
    }
    version := Some(v);
  }

  /** The target's ramp, as mapToStatus adds it. */
  method AddRamp(v: TargetVersion, ts: T.TemporalState) returns (v': TargetVersion)
    ensures v' == if ts.rampingBuildID != v.buildID then v
                  else v.(rampPercentage := Some(ts.rampPercentage), rampingSince := ts.rampingSince,
                      rampLastModifiedAt := ts.rampLastModifiedAt)
  {
    v' := v;
    if ts.rampingBuildID == v.buildID {
      v' := v'.(rampingSince := ts.rampingSince);
      v' := v'.(rampLastModifiedAt := ts.rampLastModifiedAt);
      v' := v'.(rampPercentage := Some(ts.rampPercentage));
    }
  }

  /** mapToStatus. */
  method MapToStatus(k8s: DeploymentState, state: T.TemporalWorkerState, target: BuildID) returns (status: Status)
    requires k8s.Valid()
    ensures IsStatus(status, k8s.View(), state.Value(), target)
  {
    status := MapStates(k8s.View(), state.Value(), target);
  }

  method MapStates(view: View, ts: T.TemporalState, target: BuildID) returns (status: Status)
    ensures IsStatus(status, view, ts, target)
  {
    var current := MapCurrentVersion(ts.currentBuildID, view, ts);
    var targetVersion := MapTargetVersion(target, view, ts);
    targetVersion := AddRamp(targetVersion, ts);
    assert targetVersion == MapTargetWithRamp(target, view, ts);
    var deprecated := MapDeprecatedVersions(view, ts, target);
    status := Status(current, targetVersion, deprecated, ts.conflictToken, ts.lastModifierIdentity, |ts.versions|);
  }

  /** The map loop of mapToStatus, visiting the build IDs in any order. */
  method MapDeprecatedVersions(view: View, ts: T.TemporalState, target: BuildID) returns (list: seq<DeprecatedVersion>)
    ensures Enumerates(list, view, ts, target)
  {
    list := [];
    var rest := view.Keys;
    while rest != {}
      invariant rest <= view.Keys
      invariant forall i :: 0 <= i < |list| ==> list[i].buildID !in rest
      invariant forall i :: 0 <= i < |list| ==> IsDeprecated(list[i].buildID, view, ts, target)
                                                && list[i] == MapDeprecated(list[i].buildID, view, ts)
      invariant forall i, j :: 0 <= i < j < |list| ==> list[i].buildID != list[j].buildID
      invariant forall b :: IsDeprecated(b, view, ts, target) && b !in rest ==> MapDeprecated(b, view, ts) in list
      decreases rest
    {
      var b :| b in rest;
      rest := rest - {b};
      if b == ts.currentBuildID || b == target {
        continue;
      }
      var version := MapDeprecatedVersion(b, view, ts);
      if version.Some? {
        list := list + [version.value];
      }
    }
  }

  // Storing the status

  function Shown(t: Option<Time>): Option<Time> {
    if t.Some? then Some(WholeSecond(t.value)) else None
  }

  /** The status as the API server hands it back. The times taken from the cluster are whole seconds
      already, those taken from the Temporal server are cut. */
  function Stored(s: Status): Status {
    s.(target := s.target.(rampingSince := Shown(s.target.rampingSince),
        rampLastModifiedAt := Shown(s.target.rampLastModifiedAt)),
       deprecated := seq(|s.deprecated|, i requires 0 <= i < |s.deprecated| =>
                                           s.deprecated[i].(drainedSince := Shown(s.deprecated[i].drainedSince))))
  }

  /** The observed state as far as a stored status shows it. */
  function Coarse(ts: T.TemporalState): T.TemporalState {
    ts.(rampingSince := Shown(ts.rampingSince), rampLastModifiedAt := Shown(ts.rampLastModifiedAt),
        versions := map b | b in ts.versions :: ts.versions[b].(drainedSince := Shown(ts.versions[b].drainedSince)))
  }

  /** The statuses that the planner may be given. */
  ghost predicate IsRead(s: Status, view: View, ts: T.TemporalState, target: BuildID) {
    IsStatus(s, view, Coarse(ts), target)
  }

  lemma {:induction false} CoarseKeepsCount(ts: T.TemporalState)
    ensures Coarse(ts).versions.Keys == ts.versions.Keys && |Coarse(ts).versions| == |ts.versions|
  {
    assert |ts.versions.Keys| == |ts.versions| && |Coarse(ts).versions.Keys| == |Coarse(ts).versions|;
  }

  lemma {:induction false} CoarseDeprecated(b: BuildID, view: View, ts: T.TemporalState)
    ensures MapDeprecated(b, view, Coarse(ts))
            == MapDeprecated(b, view, ts).(drainedSince := Shown(MapDeprecated(b, view, ts).drainedSince))
  {
  }

  /** Storing what is mapped shows what mapping the coarse state would. */
  lemma {:induction false} StoredIsRead(s: Status, view: View, ts: T.TemporalState, target: BuildID)
    requires IsStatus(s, view, ts, target)
    ensures IsRead(Stored(s), view, ts, target)
  {
    CoarseKeepsCount(ts);
    StoredListIsRead(s, view, ts, target);
    CoarseTarget(target, view, ts);
  }

  lemma {:induction false} CoarseTarget(b: BuildID, view: View, ts: T.TemporalState)
    ensures var v := MapTargetWithRamp(b, view, ts);
            MapTargetWithRamp(b, view, Coarse(ts))
            == v.(rampingSince := Shown(v.rampingSince), rampLastModifiedAt := Shown(v.rampLastModifiedAt))
  {
  }

  lemma {:induction false} StoredListIsRead(s: Status, view: View, ts: T.TemporalState, target: BuildID)
    requires Enumerates(s.deprecated, view, ts, target)
    ensures Enumerates(Stored(s).deprecated, view, Coarse(ts), target)
  {
    var list, list' := s.deprecated, Stored(s).deprecated;
    forall i | 0 <= i < |list'|
      ensures IsDeprecated(list'[i].buildID, view, Coarse(ts), target)
              && list'[i] == MapDeprecated(list'[i].buildID, view, Coarse(ts))
    {
      CoarseDeprecated(list[i].buildID, view, ts);
      assert IsDeprecated(list[i].buildID, view, ts, target);
    }
    forall b | IsDeprecated(b, view, Coarse(ts), target)
      ensures MapDeprecated(b, view, Coarse(ts)) in list'
    {
      CoarseDeprecated(b, view, ts);
      assert IsDeprecated(b, view, ts, target);
      var i :| 0 <= i < |list| && list[i] == MapDeprecated(b, view, ts);
      assert list'[i] == MapDeprecated(b, view, Coarse(ts));
    }
  }

  /** Each non-empty build ID with a Deployment is current, target or deprecated, deprecated only if
      neither, once, and with its own Deployment's reference. An empty label value is never mapped. */
  lemma {:induction false} StatusPartitions(s: Status, view: View, ts: T.TemporalState, target: BuildID, b: BuildID)
    requires IsStatus(s, view, ts, target) && b in view
    ensures b != "" <==> (s.current.Some? && s.current.value.buildID == b) || (target != "" && s.target.buildID == b)
                         || exists i :: 0 <= i < |s.deprecated| && s.deprecated[i].buildID == b
    ensures forall i :: 0 <= i < |s.deprecated| && s.deprecated[i].buildID == b ==>
              && s.deprecated[i].deployment == Some(view[b].ref)
              && s.target.buildID != b
              && (s.current.Some? ==> s.current.value.buildID != b)
              && (forall j :: 0 <= j < |s.deprecated| && s.deprecated[j].buildID == b ==> j == i)
  {
    if b != "" && b != ts.currentBuildID && b != target {
      assert IsDeprecated(b, view, ts, target);
      var i :| 0 <= i < |s.deprecated| && s.deprecated[i] == MapDeprecated(b, view, ts);
      assert s.deprecated[i].buildID == b;
    }
  }

  /** What versions of all three kinds show. */
  datatype Line = Line(status: VersionStatus, healthySince: Option<Time>, deployment: Option<ObjectReference>,
                       taskQueues: seq<string>)

  predicate IsLine(line: Line, status: VersionStatus, healthySince: Option<Time>, deployment: Option<ObjectReference>,
                   taskQueues: seq<string>)
  {
    line == Line(status, healthySince, deployment, taskQueues)
  }

  /** Some part of the status shows b so. */
  ghost predicate Shows(s: Status, b: BuildID, line: Line) {
    || (s.current.Some? && var v := s.current.value;
        v.buildID == b && IsLine(line, v.status, v.healthySince, v.deployment, v.taskQueues))
    || (var v := s.target;
        v.buildID == b && IsLine(line, v.status, v.healthySince, v.deployment, v.taskQueues))
    || exists v :: v in s.deprecated && v.buildID == b
                   && IsLine(line, v.status, v.healthySince, v.deployment, v.taskQueues)
  }

  /** Each version with a Deployment is shown, with its own Deployment, that Deployment's health, and the
      server's status and task queues if it is registered; and nowhere is it shown otherwise. */
  lemma {:induction false} ShownAsObserved(s: Status, view: View, ts: T.TemporalState, target: BuildID, b: BuildID,
                                           line: Line)
    requires IsStatus(s, view, ts, target) && b in view && b != ""
    ensures Shows(s, b, line) <==>
            && line.deployment == Some(view[b].ref) && line.healthySince == view[b].healthySince
            && line.status == (if b in ts.versions then ts.versions[b].status else NotRegistered)
            && line.taskQueues == (if b in ts.versions then ts.versions[b].taskQueues else [])
  {
    if b != ts.currentBuildID && b != target {
      assert IsDeprecated(b, view, ts, target);
      assert MapDeprecated(b, view, ts) in s.deprecated;
    }
  }

  lemma {:induction false} RampingIsRouted(summaries: seq<T.VersionSummary>, c: T.Context, b: BuildID)
    ensures b in T.VersionsOf(summaries, c) && T.VersionsOf(summaries, c)[b].status == Ramping ==>
              c.routing.ramping.Some? && c.routing.ramping.value.buildID == b
  {
    T.VersionsAreSummarized(summaries, c, b);
  }
}
