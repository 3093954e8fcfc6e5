/** The gate protocol: internal/temporal/worker_deployment.go reads the gate workflows,
    internal/controller/genstatus.go files them under the target version, the planner counts them. */
module Gate {
  import opened Api
  import opened Kubernetes
  import opened Planner
  import opened StateMapper
  import T = Temporal

  datatype QueueInfo = QueueInfo(name: string, isWorkflow: bool)

  datatype VersionAnswer = VersionFound(queues: seq<QueueInfo>) | VersionNotFound | VersionFailed

  datatype WorkflowAnswer = WorkflowFound(status: WorkflowStatus, taskQueue: string) | WorkflowNotFound | WorkflowFailed

  type Lookup = string -> WorkflowAnswer

  /** The progress of the loop over the task queues; it stops at the first failed look-up, whose
      queue it has noted already. */
  datatype Scan = Scan(queues: seq<string>, results: seq<WorkflowExecution>, failed: bool)

  function ScanQueues(infos: seq<QueueInfo>, deploymentName: string, buildID: BuildID, lookup: Lookup): Scan {
    if infos == [] then Scan([], [], false) else
    var before := ScanQueues(infos[..|infos| - 1], deploymentName, buildID, lookup);
    var tq := infos[|infos| - 1];
    if before.failed || !tq.isWorkflow then before else
    var id := TestWorkflowID(deploymentName, buildID, tq.name);
    match lookup(id)
    case WorkflowFound(status, queue) =>
      Scan(before.queues + [tq.name], before.results + [WorkflowExecution(id, status, queue)], false)
    case WorkflowNotFound => Scan(before.queues + [tq.name], before.results, false)
    case WorkflowFailed => Scan(before.queues + [tq.name], before.results, true)
  }

  function ScanVersion(info: T.VersionInfo, answer: VersionAnswer, lookup: Lookup): Scan {
    match answer
    case VersionFound(queues) => ScanQueues(queues, info.deploymentName, info.buildID, lookup)
    case VersionNotFound => Scan([], [], false)
    case VersionFailed => Scan([], [], true)
  }

  /** GetTestWorkflowStatus: returns the gate workflows found, and files the queues it has seen under
      the version even when it fails half-way. */
  method GetTestWorkflowStatus(state: T.TemporalWorkerState, buildID: BuildID, answer: VersionAnswer, lookup: Lookup)
    returns (r: Result<seq<WorkflowExecution>, ()>)
    modifies state`versions
    ensures buildID !in old(state.versions) ==> r == Ok([]) && state.versions == old(state.versions)
    ensures buildID in old(state.versions) ==>
              var info := old(state.versions)[buildID];
              var scan := ScanVersion(info, answer, lookup);
              && r == (if scan.failed then Err(()) else Ok(scan.results))
              && state.versions == old(state.versions)[buildID := info.(taskQueues := info.taskQueues + scan.queues)]
  {
    if buildID !in state.versions {
      return Ok([]);
    }
    if answer.VersionFailed? {
      var info := state.versions[buildID];
      assert info.taskQueues + [] == info.taskQueues;
      return Err(());
    }
    r := ScanLoop(state, buildID, if answer.VersionFound? then answer.queues else [], lookup);
  }

  /** The loop over the task queues. */
  method ScanLoop(state: T.TemporalWorkerState, buildID: BuildID, infos: seq<QueueInfo>, lookup: Lookup)
    returns (r: Result<seq<WorkflowExecution>, ()>)
    requires buildID in state.versions
    modifies state`versions
    ensures var info := old(state.versions)[buildID];
            var scan := ScanQueues(infos, info.deploymentName, info.buildID, lookup);
            && r == (if scan.failed then Err(()) else Ok(scan.results))
            && state.versions == old(state.versions)[buildID := info.(taskQueues := info.taskQueues + scan.queues)]
  {
    var versionInfo := state.versions[buildID];
    var deploymentName, b := versionInfo.deploymentName, versionInfo.buildID;
    var results: seq<WorkflowExecution> := [];
    ghost var seen: seq<string> := [];
    assert versionInfo.taskQueues + [] == versionInfo.taskQueues;
    for i := 0 to |infos|
      invariant ScanQueues(infos[..i], deploymentName, b, lookup) == Scan(seen, results, false)
      invariant state.versions == old(state.versions)[buildID := versionInfo.(taskQueues := versionInfo.taskQueues
          + seen)]
    {
      var tq := infos[i];
      ScanOneMore(infos, i, deploymentName, b, lookup);
      if !tq.isWorkflow {
        continue;
      }
      var soFar := state.versions[buildID];
      state.versions := state.versions[buildID := soFar.(taskQueues := soFar.taskQueues + [tq.name])];
      assert soFar.taskQueues + [tq.name] == versionInfo.taskQueues + (seen + [tq.name]);
      seen := seen + [tq.name];
      var testWorkflowID := TestWorkflowID(deploymentName, b, tq.name);
      var wf := lookup(testWorkflowID);
      if wf.WorkflowFailed? {
        FailureIsFinal(infos, i + 1, deploymentName, b, lookup);
        return Err(());
      }
      if wf.WorkflowFound? {
        results := results + [WorkflowExecution(testWorkflowID, wf.status, wf.taskQueue)];
      }
    }
    assert infos[..|infos|] == infos;
    return Ok(results);
  }

  lemma {:induction false} ScanOneMore(infos: seq<QueueInfo>, i: nat, deploymentName: string, buildID: BuildID,
                                       lookup: Lookup)
    requires i < |infos| && !ScanQueues(infos[..i], deploymentName, buildID, lookup).failed
    ensures var before, tq := ScanQueues(infos[..i], deploymentName, buildID, lookup), infos[i];
            var id := TestWorkflowID(deploymentName, buildID, tq.name);
            ScanQueues(infos[..i + 1], deploymentName, buildID, lookup)
            == if !tq.isWorkflow then before else
               match lookup(id)
               case WorkflowFound(status, queue) => Scan(before.queues + [tq.name],
                   before.results + [WorkflowExecution(id, status, queue)], false)
               case WorkflowNotFound => Scan(before.queues + [tq.name], before.results, false)
               case WorkflowFailed => Scan(before.queues + [tq.name], before.results, true)
  {
    assert infos[..i + 1][..i] == infos[..i];
  }

  lemma {:induction false} FailureIsFinal(infos: seq<QueueInfo>, n: nat, deploymentName: string, buildID: BuildID,
                                          lookup: Lookup)
    requires n <= |infos| && ScanQueues(infos[..n], deploymentName, buildID, lookup).failed
    ensures ScanQueues(infos, deploymentName, buildID, lookup)
            == ScanQueues(infos[..n], deploymentName, buildID, lookup)
  {
    if n < |infos| {
      var front := infos[..|infos| - 1];
      assert front[..n] == infos[..n];
      FailureIsFinal(front, n, deploymentName, buildID, lookup);
    } else {
      assert infos[..n] == infos;
    }
  }

  /** The observed state with the gate workflows of the target filed. */
  function WithGate(ts: T.TemporalState, target: BuildID, answer: VersionAnswer, lookup: Lookup): T.TemporalState {
    if target == ts.currentBuildID || target !in ts.versions then ts else
    var info := ts.versions[target];
    var scan := ScanVersion(info, answer, lookup);
    ts.(versions := ts.versions[target := info.(
      taskQueues := info.taskQueues + scan.queues,
      testWorkflows := info.testWorkflows + if scan.failed then [] else scan.results)])
  }

  /** generateStatus. A failed look-up is logged and the status is mapped all the same. */
  method GenerateStatus(k8s: DeploymentState, state: T.TemporalWorkerState, target: BuildID, answer: VersionAnswer,
                        lookup: Lookup)
    returns (status: Status)
    requires k8s.Valid()
    modifies state`versions
    ensures state.Value() == WithGate(old(state.Value()), target, answer, lookup)
    ensures IsStatus(status, k8s.View(), state.Value(), target)
  {
    if target != state.currentBuildID {
      FileGate(state, target, answer, lookup);
    }
    status := MapToStatus(k8s, state, target);
  }

  method FileGate(state: T.TemporalWorkerState, target: BuildID, answer: VersionAnswer, lookup: Lookup)
    requires target != state.currentBuildID
    modifies state`versions
    ensures state.versions == WithGate(old(state.Value()), target, answer, lookup).versions
  {
    var found := GetTestWorkflowStatus(state, target, answer, lookup);
    var testWorkflows := if found.Ok? then found.value else [];
    if target in state.versions {
      var info := state.versions[target];
      state.versions := state.versions[target := info.(testWorkflows := info.testWorkflows + testWorkflows)];
    }
  }

  // Soundness

  ghost predicate GateCompleted(id: string, lookup: Lookup) {
    lookup(id).WorkflowFound? && lookup(id).status == Completed
  }

  /** The loop finds at most one workflow per queue, so equal counts mean that none is missing. */
  lemma {:induction false} EqualCountsCoverEveryQueue(infos: seq<QueueInfo>, deploymentName: string, buildID: BuildID,
                                                      lookup: Lookup)
    ensures var scan := ScanQueues(infos, deploymentName, buildID, lookup);
            && |scan.results| <= |scan.queues|
            && (!scan.failed && |scan.results| == |scan.queues|
                && (forall i :: 0 <= i < |scan.results| ==> scan.results[i].status == Completed) ==>
                  forall i :: 0 <= i < |infos| && infos[i].isWorkflow ==>
                    GateCompleted(TestWorkflowID(deploymentName, buildID, infos[i].name), lookup))
            && (scan.queues != [] ==> exists i :: 0 <= i < |infos| && infos[i].isWorkflow)
  {
    if infos != [] {
      var n := |infos| - 1;
      var front := infos[..n];
      EqualCountsCoverEveryQueue(front, deploymentName, buildID, lookup);
      var before := ScanQueues(front, deploymentName, buildID, lookup);
      var scan := ScanQueues(infos, deploymentName, buildID, lookup);
      if before.queues != [] {
        var i :| 0 <= i < n && front[i].isWorkflow;
        assert infos[i].isWorkflow;
      }
      if !scan.failed && |scan.results| == |scan.queues|
         && (forall i :: 0 <= i < |scan.results| ==> scan.results[i].status == Completed) {
        assert forall i :: 0 <= i < |before.results| ==> before.results[i] == scan.results[i];
        forall i | 0 <= i < |infos| && infos[i].isWorkflow
          ensures GateCompleted(TestWorkflowID(deploymentName, buildID, infos[i].name), lookup)
        {
          if i < n {
            assert front[i] == infos[i];
          } else {
            assert scan.results[|scan.results| - 1].status == Completed;
          }
        }
      }
    }
  }

  /** The target as observed before the gate is read. */
  ghost predicate FreshEntry(ts: T.TemporalState, b: BuildID) {
    b in ts.versions ==>
      ts.versions[b].taskQueues == [] && ts.versions[b].testWorkflows == [] && ts.versions[b].buildID == b
  }

  lemma {:induction false} ObservedEntriesAreFresh(d: T.Description, ignore: bool, c: T.Context, b: BuildID)
    ensures FreshEntry(T.ObservedState(d, ignore, c), b)
  {
    T.VersionsAreSummarized(d.summaries, c, b);
  }

  /** Every workflow queue of the target has its own completed gate workflow. */
  ghost predicate EveryQueuePassed(info: T.VersionInfo, answer: VersionAnswer, lookup: Lookup) {
    && answer.VersionFound?
    && (exists i :: 0 <= i < |answer.queues| && answer.queues[i].isWorkflow)
    && (forall i :: 0 <= i < |answer.queues| && answer.queues[i].isWorkflow ==>
          GateCompleted(TestWorkflowID(info.deploymentName, info.buildID, answer.queues[i].name), lookup))
  }

  lemma {:induction false} PassedQueuesFillTheScan(infos: seq<QueueInfo>, deploymentName: string, b: BuildID,
                                                   lookup: Lookup)
    requires forall i :: 0 <= i < |infos| && infos[i].isWorkflow ==>
               GateCompleted(TestWorkflowID(deploymentName, b, infos[i].name), lookup)
    ensures var scan := ScanQueues(infos, deploymentName, b, lookup);
            && !scan.failed && |scan.results| == |scan.queues|
            && (forall i :: 0 <= i < |scan.results| ==> scan.results[i].status == Completed)
            && ((exists i :: 0 <= i < |infos| && infos[i].isWorkflow) ==> scan.queues != [])
  {
    if infos != [] {
      var n := |infos| - 1;
      var front := infos[..n];
      assert forall i :: 0 <= i < n ==> front[i] == infos[i];
      PassedQueuesFillTheScan(front, deploymentName, b, lookup);
    }
  }

  /** The planner's count lets through exactly the targets whose every workflow queue has passed. */
  lemma {:induction false} GateOpensIff(s: Status, view: View, ts: T.TemporalState, target: BuildID,
                                        answer: VersionAnswer, lookup: Lookup)
    requires target != "" && FreshEntry(ts, target)
    requires IsRead(s, view, WithGate(ts, target, answer, lookup), target)
    ensures GatePassed(s.target) <==>
            && target in ts.versions && target != ts.currentBuildID
            && EveryQueuePassed(ts.versions[target], answer, lookup)
  {
    ShowsTheScan(s, view, ts, target, answer, lookup);
    if target in ts.versions && target != ts.currentBuildID && answer.VersionFound? {
      var info := ts.versions[target];
      EqualCountsCoverEveryQueue(answer.queues, info.deploymentName, info.buildID, lookup);
      if EveryQueuePassed(info, answer, lookup) {
        PassedQueuesFillTheScan(answer.queues, info.deploymentName, info.buildID, lookup);
      }
    }
  }

  /** Gate soundness, with the answers to the look-ups arbitrary, failures included: a routing change
      is planned under a gate only if every workflow queue's own gate workflow has completed. In
      particular none is planned once the target is current, so a gate also stops the ramp reset. */
  lemma {:induction false} GateSoundness(s: Status, view: View, ts: T.TemporalState, target: BuildID,
                                         answer: VersionAnswer,
                      lookup: Lookup, strategy: RolloutStrategy, now: Time)
    requires target != "" && FreshEntry(ts, target)
    requires IsRead(s, view, WithGate(ts, target, answer, lookup), target)
    requires TargetEntryPresent(s, WithGate(ts, target, answer, lookup))
    requires strategy.gate.Some?
    requires VersionDiff(s, WithGate(ts, target, answer, lookup), strategy, now).Some?
    ensures target in ts.versions && target != ts.currentBuildID
    ensures EveryQueuePassed(ts.versions[target], answer, lookup)
  {
    var info := ts.versions[target];
    ShowsTheScan(s, view, ts, target, answer, lookup);
    assert GatePassed(s.target);
    EqualCountsCoverEveryQueue(answer.queues, info.deploymentName, info.buildID, lookup);
  }

  lemma {:induction false} TargetShows(s: Status, view: View, ts: T.TemporalState, target: BuildID)
    requires target != "" && IsRead(s, view, ts, target)
    ensures s.target.buildID == target
    ensures s.target.taskQueues == QueuesIn(target, ts)
    ensures s.target.testWorkflows == if target in ts.versions then ts.versions[target].testWorkflows else []
    ensures s.current.Some? && s.current.value.buildID == target <==> target == ts.currentBuildID
  {
    assert s.target == MapTargetWithRamp(target, view, Coarse(ts));
  }

  lemma {:induction false} FiledEntry(ts: T.TemporalState, target: BuildID, answer: VersionAnswer, lookup: Lookup)
    requires target in ts.versions && target != ts.currentBuildID && FreshEntry(ts, target)
    ensures var scan, info := ScanVersion(ts.versions[target], answer, lookup),
            WithGate(ts, target, answer, lookup).versions[target];
            info.taskQueues == scan.queues && info.testWorkflows == if scan.failed then [] else scan.results
  {
  }

  /** What the status says of the target's queues is what the scan found. */
  lemma {:induction false} ShowsTheScan(s: Status, view: View, ts: T.TemporalState, target: BuildID,
                                        answer: VersionAnswer, lookup: Lookup)
    requires target != "" && FreshEntry(ts, target)
    requires IsRead(s, view, WithGate(ts, target, answer, lookup), target)
    ensures s.target.buildID == target
    ensures target in ts.versions && target != ts.currentBuildID ==>
              var scan := ScanVersion(ts.versions[target], answer, lookup);
              && s.target.taskQueues == scan.queues
              && s.target.testWorkflows == if scan.failed then [] else scan.results
    ensures target !in ts.versions || target == ts.currentBuildID ==> s.target.taskQueues == []
    ensures s.current.Some? && s.current.value.buildID == s.target.buildID <==> target == ts.currentBuildID
  {
    TargetShows(s, view, WithGate(ts, target, answer, lookup), target);
    if target in ts.versions && target != ts.currentBuildID {
      FiledEntry(ts, target, answer, lookup);
    }
  }

  /** Without a gate the ramp of another version is withdrawn once the target is current; with one
      the planner returns before it gets there. */
  lemma {:induction false} RampResetIffNoGate(s: Status, view: View, ts: T.TemporalState, target: BuildID,
                                              answer: VersionAnswer,
                           lookup: Lookup, strategy: RolloutStrategy, now: Time)
    requires target != "" && FreshEntry(ts, target)
    requires IsRead(s, view, WithGate(ts, target, answer, lookup), target)
    requires TargetEntryPresent(s, WithGate(ts, target, answer, lookup))
    requires target == ts.currentBuildID && ts.rampingBuildID != ""
    requires strategy.strategy != Manual && s.target.healthySince.Some? && s.target.status != NotRegistered
    ensures VersionDiff(s, WithGate(ts, target, answer, lookup), strategy, now)
            == if strategy.gate.None? then Some(Rollout.RoutingChange(ts.conflictToken, "", false, 0)) else None
  {
  }

  // Workflow IDs

  lemma {:induction false} WorkflowIDInjectiveInQueue(deploymentName: string, buildID: BuildID, p: string, q: string)
    requires TestWorkflowID(deploymentName, buildID, p) == TestWorkflowID(deploymentName, buildID, q)
    ensures p == q
  {
    var prefix := "test-" + deploymentName + ":" + buildID + "-";
    assert (prefix + p)[|prefix|..] == p;
    assert (prefix + q)[|prefix|..] == q;
  }

  /** Over (build ID, queue) pairs IDs may coincide, since the dash that joins them may occur in both:
      for different builds exactly if one build ID continues the other past a dash, and the queues make
      up the difference. */
  lemma {:induction false} WorkflowIDsCoincideIff(deploymentName: string, b: BuildID, p: string, c: BuildID, q: string)
    requires |b| <= |c|
    ensures TestWorkflowID(deploymentName, b, p) == TestWorkflowID(deploymentName, c, q)
            <==> (b == c && p == q)
                 || (|b| < |c| && c[..|b| + 1] == b + "-" && p == c[|b| + 1..] + "-" + q)
  {
    JoinedCoincideIff(deploymentName, b, p, c, q);
    var left, right := b + "-" + p, c + "-" + q;
    if left == right {
      assert left[..|b|] == b && left[|b|] == '-' && left[|b| + 1..] == p;
      if |b| == |c| {
        assert right[..|c|] == c && right[|c| + 1..] == q;
      } else {
        assert right[..|b| + 1] == c[..|b| + 1] && right[|b| + 1..] == c[|b| + 1..] + "-" + q;
        assert left[..|b| + 1] == b + "-";
      }
    }
    if |b| < |c| && c[..|b| + 1] == b + "-" && p == c[|b| + 1..] + "-" + q {
      assert c == c[..|b| + 1] + c[|b| + 1..];
      assert left == right;
    }
  }

  lemma {:induction false} JoinedCoincideIff(deploymentName: string, b: BuildID, p: string, c: BuildID, q: string)
    ensures TestWorkflowID(deploymentName, b, p) == TestWorkflowID(deploymentName, c, q) <==> b + "-" + p == c + "-" + q
  {
    var prefix := "test-" + deploymentName + ":";
    assert TestWorkflowID(deploymentName, b, p) == prefix + (b + "-" + p);
    assert TestWorkflowID(deploymentName, c, q) == prefix + (c + "-" + q);
    assert (prefix + (b + "-" + p))[|prefix|..] == b + "-" + p;
    assert (prefix + (c + "-" + q))[|prefix|..] == c + "-" + q;
  }

  /** Queue x-main of build v1 and queue main of build v1-x. */
  lemma {:induction false} BuildsShareAWorkflowID(deploymentName: string)
    ensures TestWorkflowID(deploymentName, "v1", "x-main") == TestWorkflowID(deploymentName, "v1-x", "main")
    ensures TestWorkflowID(deploymentName, "v1", "x-main") == "test-" + deploymentName + ":v1-x-main"
  {
    assert ":" + ("v1" + "-" + "x-main") == ":v1-x-main";
    WorkflowIDsCoincideIff(deploymentName, "v1", "x-main", "v1-x", "main");
  }
}
