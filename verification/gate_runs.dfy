/** Runs of any number of reconciles over the gate workflows of one server, interleaved call by call,
    each cut off anywhere. The server refuses to start a workflow whose ID it has already seen. */
module GateRuns {
  import opened Api
  import opened Kubernetes
  import opened Planner
  import opened StateMapper
  import opened Gate
  import opened Execution
  import T = Temporal

  datatype Workflow = Workflow(status: WorkflowStatus, taskQueue: string)

  /** One reconcile between planning and its last call: the version it saw, that version's task queues,
      the queues it had to see tested, the workflow type to test them with, and the calls still to make. */
  datatype Pending = Pending(info: T.VersionInfo, queues: seq<QueueInfo>, tested: seq<string>, gate: string,
                             rest: seq<Action>)

  /** started logs the IDs of all gate workflows started by controllers, scans what the look-ups of each
      reconcile that is not yet planning have answered so far. */
  datatype World = World(
    workflows: map<string, Workflow>,
    started: seq<string>,
    scans: map<nat, map<string, WorkflowAnswer>>,
    pending: map<nat, Pending>)

  /** What a look-up may answer: the truth, or an error. */
  ghost predicate IsTrue(answer: WorkflowAnswer, id: string, workflows: map<string, Workflow>) {
    match answer
    case WorkflowFound(status, queue) => id in workflows && workflows[id] == Workflow(status, queue)
    case WorkflowNotFound => id !in workflows
    case WorkflowFailed => true
  }

  /** All look-ups made at once. */
  ghost predicate Truthful(lookup: Lookup, workflows: map<string, Workflow>) {
    forall id :: IsTrue(lookup(id), id, workflows)
  }

  /** The look-ups of a scan are those it has made. */
  ghost predicate Heard(lookup: Lookup, scan: map<string, WorkflowAnswer>) {
    forall id :: lookup(id) == if id in scan then scan[id] else WorkflowFailed
  }

  /** The target is registered and not current, so its queues are to be tested. */
  predicate TestsApply(s: Status) {
    !(s.current.Some? && s.current.value.buildID == s.target.buildID) && s.target.status != NotRegistered
  }

  /** What one reconcile reads and is configured with, apart from the target's status. */
  datatype Reading = Reading(view: View, ts: T.TemporalState, target: BuildID, queues: seq<QueueInfo>, lookup: Lookup,
                             strategy: RolloutStrategy, now: Time)

  function Filed(r: Reading): T.TemporalState {
    WithGate(r.ts, r.target, VersionFound(r.queues), r.lookup)
  }

  ghost predicate Read(r: Reading, s: Status) {
    && r.target != "" && FreshEntry(r.ts, r.target) && r.target in r.ts.versions
    && r.strategy.gate.Some?
    && IsRead(s, r.view, Filed(r), r.target)
    && TargetEntryPresent(s, Filed(r))
  }

  function Info(r: Reading): T.VersionInfo
    requires r.target in r.ts.versions
  {
    r.ts.versions[r.target]
  }

  /** The calls planned from a reading; Deployments are left out here. */
  function Calls(r: Reading, s: Status): Plan
    requires r.target in r.ts.versions && TargetEntryPresent(s, Filed(r))
  {
    Plan(None, [], map[], [], TestPlan(s, r.strategy, Info(r).deploymentName),
        VersionDiff(s, Filed(r), r.strategy, r.now), [])
  }

  ghost predicate BeginStep(w: World, w': World, c: nat) {
    w' == w.(scans := w.scans[c := map[]])
  }

  /** c looks up one workflow. */
  ghost predicate LookUpStep(w: World, w': World, c: nat, id: string, answer: WorkflowAnswer) {
    && c in w.scans && IsTrue(answer, id, w.workflows)
    && w' == w.(scans := w.scans[c := w.scans[c][id := answer]])
  }

  /** Planning: the scan is filed under the target, the status mapped, and the tests and the routing
      change planned from it become calls. */
  ghost predicate PlanStep(w: World, w': World, c: nat, r: Reading, s: Status) {
    && Read(r, s) && c in w.scans && Heard(r.lookup, w.scans[c])
    && var tested := if TestsApply(s) then s.target.taskQueues else [];
       w' == w.(scans := w.scans - {c},
                pending := w.pending[c := Pending(Info(r), r.queues, tested, r.strategy.gate.value,
                                                  ActionsOf(Calls(r, s), []))])
  }

  /** The next call of c takes effect, or fails and ends the reconcile. */
  ghost predicate ExecuteStep(w: World, w': World, c: nat) {
    && c in w.pending && w.pending[c].rest != []
    && var p := w.pending[c];
       || w' == w.(pending := w.pending - {c})
       || (var next := w.pending[c := p.(rest := p.rest[1..])];
           if p.rest[0].StartTest? then
             var test := p.rest[0].test;
             && test.workflowID !in w.workflows
             && w' == w.(workflows := w.workflows[test.workflowID := Workflow(Running, test.taskQueue)],
                         started := w.started + [test.workflowID], pending := next)
           else
             w' == w.(pending := next))
  }

  /** Workflows run to a close, and stay closed; others may be started by anybody; a crash ends a reconcile. */
  ghost predicate OtherStep(w: World, w': World) {
    && w'.started == w.started
    && (forall id :: id in w.workflows ==>
          && id in w'.workflows && w'.workflows[id].taskQueue == w.workflows[id].taskQueue
          && (w.workflows[id].status != Running ==> w'.workflows[id] == w.workflows[id]))
    && (forall c :: c in w'.scans ==> c in w.scans && w'.scans[c] == w.scans[c])
    && (forall c :: c in w'.pending ==> c in w.pending && w'.pending[c] == w.pending[c])
  }

  ghost predicate Step(w: World, w': World) {
    || (exists c :: BeginStep(w, w', c))
    || (exists c, id, answer :: LookUpStep(w, w', c, id, answer))
    || (exists c, r, s :: PlanStep(w, w', c, r, s))
    || (exists c :: ExecuteStep(w, w', c))
    || OtherStep(w, w')
  }

  ghost predicate IsRun(run: seq<World>) {
    && run != [] && run[0].scans == map[] && run[0].pending == map[] && run[0].started == []
    && forall i :: 0 <= i < |run| - 1 ==> Step(run[i], run[i + 1])
  }

  ghost predicate Keeps(w: World, w': World, c: nat) {
    c in w.pending && c in w'.pending && w'.pending[c] == w.pending[c]
  }

  ghost predicate Plans(w: World, w': World, c: nat) {
    exists r, s :: PlanStep(w, w', c, r, s)
  }

  /** How a reconcile comes to stand where it does. */
  lemma {:induction false} PendingMoves(w: World, w': World, c: nat)
    requires Step(w, w') && c in w'.pending
    ensures Keeps(w, w', c) || (c in w.pending && ExecuteStep(w, w', c)) || Plans(w, w', c)
  {
  }

  // Each ID at most once

  ghost predicate StartedOnce(w: World) {
    && (forall i, j :: 0 <= i < j < |w.started| ==> w.started[i] != w.started[j])
    && (forall i :: 0 <= i < |w.started| ==> w.started[i] in w.workflows)
  }

  /** This much is the server's doing: it rejects duplicates. What the planner contributes is below. */
  lemma {:induction false} NoWorkflowStartedTwice(run: seq<World>, k: nat)
    requires IsRun(run) && k < |run|
    ensures StartedOnce(run[k])
  {
    if k > 0 {
      NoWorkflowStartedTwice(run, k - 1);
      assert Step(run[k - 1], run[k]);
    }
  }

  // What a scan has heard

  /** What still holds of an answer once workflows have moved on. */
  ghost predicate StillTrue(answer: WorkflowAnswer, id: string, w: World) {
    answer.WorkflowFound? ==>
      && id in w.workflows && w.workflows[id].taskQueue == answer.taskQueue
      && (answer.status == Completed ==> w.workflows[id].status == Completed)
  }

  ghost predicate Remembers(lookup: Lookup, w: World) {
    forall id :: StillTrue(lookup(id), id, w)
  }

  ghost predicate AllRemembered(w: World) {
    forall c, id :: c in w.scans && id in w.scans[c] ==> StillTrue(w.scans[c][id], id, w)
  }

  lemma {:induction false} HeardIsRemembered(w: World, c: nat, lookup: Lookup)
    requires AllRemembered(w) && c in w.scans && Heard(lookup, w.scans[c])
    ensures Remembers(lookup, w)
  {
    forall id
      ensures StillTrue(lookup(id), id, w)
    {
      assert id in w.scans[c] ==> StillTrue(w.scans[c][id], id, w);
    }
  }

  lemma {:induction false} StepKeepsRemembered(w: World, w': World)
    requires Step(w, w') && AllRemembered(w)
    ensures AllRemembered(w')
  {
    StepGrows(w, w');
    forall c, id | c in w'.scans && id in w'.scans[c]
      ensures StillTrue(w'.scans[c][id], id, w')
    {
      if c in w.scans && id in w.scans[c] && w'.scans[c][id] == w.scans[c][id] {
        assert StillTrue(w.scans[c][id], id, w);
      }
    }
  }

  lemma {:induction false} ScansAreRemembered(run: seq<World>, k: nat)
    requires IsRun(run) && k < |run|
    ensures AllRemembered(run[k])
  {
    if k > 0 {
      ScansAreRemembered(run, k - 1);
      assert Step(run[k - 1], run[k]);
      StepKeepsRemembered(run[k - 1], run[k]);
    }
  }

  // A routing change means the gate holds

  ghost predicate QueueOf(q: string, queues: seq<QueueInfo>) {
    exists i :: 0 <= i < |queues| && queues[i].isWorkflow && queues[i].name == q
  }

  ghost predicate Passed(id: string, w: World) {
    id in w.workflows && w.workflows[id].status == Completed
  }

  /** Some completed gate workflow of the version really ran on queue q. */
  ghost predicate RanOn(q: string, info: T.VersionInfo, queues: seq<QueueInfo>, w: World) {
    exists r :: QueueOf(r, queues) && Passed(IDFor(info, r), w) && w.workflows[IDFor(info, r)].taskQueue == q
  }

  function IDFor(info: T.VersionInfo, q: string): string {
    TestWorkflowID(info.deploymentName, info.buildID, q)
  }

  /** Every workflow queue the reconcile saw has its own completed gate workflow, and a completed gate
      workflow really ran on it. */
  ghost predicate GateHolds(info: T.VersionInfo, queues: seq<QueueInfo>, w: World) {
    forall q :: QueueOf(q, queues) ==> Passed(IDFor(info, q), w) && RanOn(q, info, queues, w)
  }

  ghost predicate HasChange(rest: seq<Action>) {
    exists i :: 0 <= i < |rest| && rest[i].ChangeRouting?
  }

  /** The next call is a start that the server is bound to refuse. */
  ghost predicate BoundToFail(rest: seq<Action>, w: World) {
    rest != [] && rest[0].StartTest? && rest[0].test.workflowID in w.workflows
  }

  /** A routing change still to come either has the gate behind it or sits behind a refusal. */
  ghost predicate Gated(p: Pending, w: World) {
    HasChange(p.rest) ==> GateHolds(p.info, p.queues, w) || BoundToFail(p.rest, w)
  }

  lemma {:induction false} ScanIsOfTheQueues(queues: seq<QueueInfo>, deploymentName: string, b: BuildID, lookup: Lookup)
    ensures var scan := ScanQueues(queues, deploymentName, b, lookup);
            && (forall q :: q in scan.queues ==> QueueOf(q, queues))
            && (!scan.failed ==> forall q :: QueueOf(q, queues) ==> q in scan.queues)
            && (forall wf :: wf in scan.results ==>
                  exists r :: QueueOf(r, queues) && wf.workflowID == TestWorkflowID(deploymentName, b, r)
                              && lookup(wf.workflowID) == WorkflowFound(wf.status, wf.taskQueue))
  {
    if queues != [] {
      var n := |queues| - 1;
      var front := queues[..n];
      ScanIsOfTheQueues(front, deploymentName, b, lookup);
      var before, scan := ScanQueues(front, deploymentName, b, lookup), ScanQueues(queues, deploymentName, b, lookup);
      forall q
        ensures QueueOf(q, front) ==> QueueOf(q, queues)
        ensures QueueOf(q, queues) ==> QueueOf(q, front) || (queues[n].isWorkflow && queues[n].name == q)
      {
        if QueueOf(q, front) {
          var i :| 0 <= i < n && front[i].isWorkflow && front[i].name == q;
          assert queues[i].isWorkflow && queues[i].name == q;
        }
        if QueueOf(q, queues) {
          var i :| 0 <= i <= n && queues[i].isWorkflow && queues[i].name == q;
          assert i < n ==> front[i] == queues[i];
        }
      }
      assert queues[n].isWorkflow ==> QueueOf(queues[n].name, queues);
    }
  }

  ghost predicate Planned(id: string, tests: seq<WorkflowConfig>) {
    exists i :: 0 <= i < |tests| && tests[i].workflowID == id
  }

  lemma {:induction false} MissingTestsAreTheUncovered(queues: seq<string>, covered: set<string>, gate: string,
                                                       deploymentName: string, b: BuildID)
    ensures var tests := MissingTests(queues, covered, gate, deploymentName, b);
            && (forall q :: q in queues && q !in covered ==> Planned(TestWorkflowID(deploymentName, b, q), tests))
            && (forall i :: 0 <= i < |tests| ==>
                  && tests[i].workflowType == gate && tests[i].buildID == b
                  && tests[i].taskQueue in queues && tests[i].taskQueue !in covered
                  && tests[i].workflowID == TestWorkflowID(deploymentName, b, tests[i].taskQueue))
  {
    if queues != [] {
      var front := queues[..|queues| - 1];
      MissingTestsAreTheUncovered(front, covered, gate, deploymentName, b);
      var before, tests := MissingTests(front, covered, gate, deploymentName, b),
        MissingTests(queues, covered, gate, deploymentName, b);
      forall q | q in queues && q !in covered
        ensures Planned(TestWorkflowID(deploymentName, b, q), tests)
      {
        if q in front {
          var i :| 0 <= i < |before| && before[i].workflowID == TestWorkflowID(deploymentName, b, q);
          assert tests[i] == before[i];
        } else {
          assert q == queues[|queues| - 1];
          assert tests[|before|].workflowID == TestWorkflowID(deploymentName, b, q);
        }
      }
    }
  }

  lemma {:induction false} EveryQueueIsPassed(w: World, info: T.VersionInfo, queues: seq<QueueInfo>, lookup: Lookup)
    requires Remembers(lookup, w) && EveryQueuePassed(info, VersionFound(queues), lookup)
    ensures forall q :: QueueOf(q, queues) ==> Passed(IDFor(info, q), w)
  {
    forall q | QueueOf(q, queues)
      ensures Passed(IDFor(info, q), w)
    {
      var i :| 0 <= i < |queues| && queues[i].isWorkflow && queues[i].name == q;
      assert GateCompleted(TestWorkflowID(info.deploymentName, info.buildID, queues[i].name), lookup);
    }
  }

  /** If the scan's results cover the queue and every ID has passed, a passed workflow ran on it. */
  lemma {:induction false} CoveredQueueRan(w: World, info: T.VersionInfo, queues: seq<QueueInfo>, lookup: Lookup,
                                           q: string)
    requires Remembers(lookup, w)
    requires forall r :: QueueOf(r, queues) ==> Passed(IDFor(info, r), w)
    requires q in CoveredQueues(ScanQueues(queues, info.deploymentName, info.buildID, lookup).results)
    ensures RanOn(q, info, queues, w)
  {
    ScanIsOfTheQueues(queues, info.deploymentName, info.buildID, lookup);
    var wf :| wf in ScanQueues(queues, info.deploymentName, info.buildID, lookup).results && wf.taskQueue == q;
    var r :| QueueOf(r, queues) && wf.workflowID == TestWorkflowID(info.deploymentName, info.buildID, r)
             && lookup(wf.workflowID) == WorkflowFound(wf.status, wf.taskQueue);
    assert Passed(IDFor(info, r), w) && w.workflows[IDFor(info, r)].taskQueue == q;
  }

  lemma {:induction false} StatusHoldsTheScan(r: Reading, s: Status)
    requires Read(r, s)
    ensures s.target.buildID == r.target
    ensures r.target != r.ts.currentBuildID ==>
              var scan := ScanQueues(r.queues, Info(r).deploymentName, Info(r).buildID, r.lookup);
              && s.target.taskQueues == scan.queues
              && s.target.testWorkflows == if scan.failed then [] else scan.results
    ensures TestsApply(s) <==> r.target != r.ts.currentBuildID && s.target.status != NotRegistered
  {
    ShowsTheScan(s, r.view, r.ts, r.target, VersionFound(r.queues), r.lookup);
  }

  lemma {:induction false} CallsInOrder(p: Plan)
    requires p.create.None? && p.deletes == [] && p.scales == map[] && p.updates == []
    ensures HasChange(ActionsOf(p, [])) ==> p.change.Some?
    ensures forall i :: 0 <= i < |p.tests| ==> ActionsOf(p, [])[i] == StartTest(p.tests[i])
  {
    var tests, routing := TestActions(p), RoutingActions(p);
    OnlyTestsAndRouting(p);
    assert forall i :: 0 <= i < |tests| ==> ActionsOf(p, [])[i] == tests[i] && !tests[i].ChangeRouting?;
    if p.change.None? {
      assert forall i :: |tests| <= i < |ActionsOf(p, [])| ==> ActionsOf(p, [])[i] == routing[i - |tests|];
    }
  }

  lemma {:induction false} OnlyTestsAndRouting(p: Plan)
    requires p.create.None? && p.deletes == [] && p.scales == map[] && p.updates == []
    ensures ActionsOf(p, []) == TestActions(p) + RoutingActions(p)
  {
    assert ClusterActions(p, []) == [];
  }

  lemma {:induction false} ChangeMeansPassed(r: Reading, s: Status)
    requires Read(r, s) && Calls(r, s).change.Some?
    ensures r.target != r.ts.currentBuildID && TestsApply(s)
    ensures EveryQueuePassed(Info(r), VersionFound(r.queues), r.lookup)
    ensures !ScanQueues(r.queues, Info(r).deploymentName, Info(r).buildID, r.lookup).failed
  {
    GateSoundness(s, r.view, r.ts, r.target, VersionFound(r.queues), r.lookup, r.strategy, r.now);
    StatusHoldsTheScan(r, s);
    assert GatePassed(s.target);
  }

  lemma {:induction false} PlannedChangeIsGated(w: World, w': World, c: nat, r: Reading, s: Status)
    requires PlanStep(w, w', c, r, s) && Remembers(r.lookup, w)
    ensures Gated(w'.pending[c], w')
  {
    var p := Calls(r, s);
    CallsInOrder(p);
    if p.change.Some? {
      ChangeIsGated(w, r, s);
      if p.tests == [] {
        GateKeepsHolding(Info(r), r.queues, w, w');
      }
    }
  }

  lemma {:induction false} ChangeIsGated(w: World, r: Reading, s: Status)
    requires Read(r, s) && Remembers(r.lookup, w) && Calls(r, s).change.Some?
    ensures var tests := Calls(r, s).tests;
            if tests == [] then GateHolds(Info(r), r.queues, w) else tests[0].workflowID in w.workflows
  {
    ChangeMeansPassed(r, s);
    StatusHoldsTheScan(r, s);
    EveryQueueIsPassed(w, Info(r), r.queues, r.lookup);
    PlannedTestsAreRefused(w, s, Info(r), r.queues, r.lookup, r.strategy);
  }

  /** With every ID passed, the tests still planned are for IDs the server has already seen; with none
      planned, every queue was covered. */
  lemma {:induction false} PlannedTestsAreRefused(w: World, s: Status, info: T.VersionInfo, queues: seq<QueueInfo>,
                                                  lookup: Lookup,
                                 strategy: RolloutStrategy)
    requires Remembers(lookup, w) && strategy.gate.Some? && TestsApply(s)
    requires forall q :: QueueOf(q, queues) ==> Passed(IDFor(info, q), w)
    requires s.target.taskQueues == ScanQueues(queues, info.deploymentName, info.buildID, lookup).queues
    requires s.target.testWorkflows == ScanQueues(queues, info.deploymentName, info.buildID, lookup).results
    requires !ScanQueues(queues, info.deploymentName, info.buildID, lookup).failed
    requires s.target.buildID == info.buildID
    ensures var tests := TestPlan(s, strategy, info.deploymentName);
            if tests == [] then GateHolds(info, queues, w) else tests[0].workflowID in w.workflows
  {
    var tests := TestPlan(s, strategy, info.deploymentName);
    if tests == [] {
      forall q | QueueOf(q, queues)
        ensures RanOn(q, info, queues, w)
      {
        UnplannedQueueRan(w, s, info, queues, lookup, strategy, q);
      }
    } else {
      ScannedAreSeen(queues, info.deploymentName, info.buildID, lookup);
      TestPlanIsOwn(s, strategy, info, queues);
      assert Passed(IDFor(info, tests[0].taskQueue), w);
    }
  }

  lemma {:induction false} UnplannedQueueRan(w: World, s: Status, info: T.VersionInfo, queues: seq<QueueInfo>,
                                             lookup: Lookup,
                                             strategy: RolloutStrategy, q: string)
    requires Remembers(lookup, w) && strategy.gate.Some? && TestsApply(s) && s.target.buildID == info.buildID
    requires forall r :: QueueOf(r, queues) ==> Passed(IDFor(info, r), w)
    requires s.target.taskQueues == ScanQueues(queues, info.deploymentName, info.buildID, lookup).queues
    requires s.target.testWorkflows == ScanQueues(queues, info.deploymentName, info.buildID, lookup).results
    requires !ScanQueues(queues, info.deploymentName, info.buildID, lookup).failed
    requires TestPlan(s, strategy, info.deploymentName) == [] && QueueOf(q, queues)
    ensures RanOn(q, info, queues, w)
  {
    SeenAreScanned(queues, info.deploymentName, info.buildID, lookup, q);
    if q in CoveredQueues(s.target.testWorkflows) {
      CoveredQueueRan(w, info, queues, lookup, q);
    } else {
      UncoveredIsPlanned(s, strategy, info, q);
    }
  }

  lemma {:induction false} SeenAreScanned(queues: seq<QueueInfo>, deploymentName: string, b: BuildID, lookup: Lookup,
                                          q: string)
    requires !ScanQueues(queues, deploymentName, b, lookup).failed && QueueOf(q, queues)
    ensures q in ScanQueues(queues, deploymentName, b, lookup).queues
  {
    ScanIsOfTheQueues(queues, deploymentName, b, lookup);
  }

  /** Completed workflows are still there, and completed, later on. */
  ghost predicate Grows(w: World, w': World) {
    forall id :: id in w.workflows ==> id in w'.workflows && w'.workflows[id].taskQueue == w.workflows[id].taskQueue
                                       && (w.workflows[id].status == Completed ==> w'.workflows[id].status == Completed)
  }

  lemma {:induction false} GateKeepsHolding(info: T.VersionInfo, queues: seq<QueueInfo>, w: World, w': World)
    requires Grows(w, w') && GateHolds(info, queues, w)
    ensures GateHolds(info, queues, w')
  {
    forall q | QueueOf(q, queues)
      ensures Passed(IDFor(info, q), w') && RanOn(q, info, queues, w')
    {
      assert Passed(IDFor(info, q), w);
      var r :| QueueOf(r, queues) && Passed(IDFor(info, r), w) && w.workflows[IDFor(info, r)].taskQueue == q;
      assert Passed(IDFor(info, r), w');
    }
  }

  lemma {:induction false} StaysGated(p: Pending, w: World, w': World)
    requires Grows(w, w') && Gated(p, w)
    ensures Gated(p, w')
  {
    if GateHolds(p.info, p.queues, w) {
      GateKeepsHolding(p.info, p.queues, w, w');
    }
  }

  lemma {:induction false} AdvancesGated(w: World, w': World, c: nat)
    requires ExecuteStep(w, w', c) && Grows(w, w') && Gated(w.pending[c], w) && c in w'.pending
    ensures Gated(w'.pending[c], w')
  {
    var p := w.pending[c];
    if HasChange(w'.pending[c].rest) {
      var i :| 0 <= i < |w'.pending[c].rest| && w'.pending[c].rest[i].ChangeRouting?;
      assert p.rest[i + 1].ChangeRouting?;
      GateKeepsHolding(p.info, p.queues, w, w');
    }
  }

  ghost predicate AllGated(w: World) {
    forall c :: c in w.pending ==> Gated(w.pending[c], w)
  }

  lemma {:induction false} PhaseStaysGated(w: World, w': World, c: nat)
    requires Step(w, w') && Grows(w, w') && AllRemembered(w) && AllGated(w) && c in w'.pending
    ensures Gated(w'.pending[c], w')
  {
    PendingMoves(w, w', c);
    if Keeps(w, w', c) {
      StaysGated(w.pending[c], w, w');
    } else if c in w.pending && ExecuteStep(w, w', c) {
      AdvancesGated(w, w', c);
    } else {
      PlansGated(w, w', c);
    }
  }

  lemma {:induction false} PlansGated(w: World, w': World, c: nat)
    requires Plans(w, w', c) && AllRemembered(w)
    ensures c in w'.pending && Gated(w'.pending[c], w')
  {
    var r, s :| PlanStep(w, w', c, r, s);
    HeardIsRemembered(w, c, r.lookup);
    PlannedChangeIsGated(w, w', c, r, s);
  }

  lemma {:induction false} ChangesStayGated(w: World, w': World)
    requires Step(w, w') && AllRemembered(w) && AllGated(w)
    ensures AllGated(w')
  {
    StepGrows(w, w');
    forall c | c in w'.pending
      ensures Gated(w'.pending[c], w')
    {
      PhaseStaysGated(w, w', c);
    }
  }

  lemma {:induction false} AllChangesAreGated(run: seq<World>, k: nat)
    requires IsRun(run) && k < |run|
    ensures AllGated(run[k])
  {
    if k > 0 {
      AllChangesAreGated(run, k - 1);
      ScansAreRemembered(run, k - 1);
      assert Step(run[k - 1], run[k]);
      ChangesStayGated(run[k - 1], run[k]);
    }
  }

  /** End to end: when a routing change is made under a gate, every workflow queue that the reconcile
      saw has its own completed gate workflow, and none of them is stood for by a workflow that ran
      elsewhere because two builds share an ID. */
  lemma {:induction false} RoutingChangesOnlyBehindTheGate(run: seq<World>, k: nat, c: nat)
    requires IsRun(run) && k < |run| && c in run[k].pending
    requires run[k].pending[c].rest != [] && run[k].pending[c].rest[0].ChangeRouting?
    ensures GateHolds(run[k].pending[c].info, run[k].pending[c].queues, run[k])
  {
    AllChangesAreGated(run, k);
  }

  // What the planner starts

  /** The test is of the gate's type and pinned to the version, on one of its workflow queues, under
      that queue's own ID. */
  ghost predicate IsOwn(test: WorkflowConfig, info: T.VersionInfo, queues: seq<QueueInfo>, gate: string) {
    && test.workflowType == gate && test.buildID == info.buildID
    && QueueOf(test.taskQueue, queues) && test.workflowID == IDFor(info, test.taskQueue)
  }

  /** Every start still to come is the version's own, on a queue that the reconcile saw. */
  ghost predicate StartsOwn(p: Pending) {
    forall i :: 0 <= i < |p.rest| && p.rest[i].StartTest? ==> IsOwn(p.rest[i].test, p.info, p.queues, p.gate)
  }

  /** The starts are the version's own, of queues the status lists and the workflows found do not cover. */
  ghost predicate TestsOwn(tests: seq<WorkflowConfig>, s: Status, info: T.VersionInfo, queues: seq<QueueInfo>,
                           gate: string) {
    forall i :: 0 <= i < |tests| ==>
      && IsOwn(tests[i], info, queues, gate)
      && tests[i].taskQueue in s.target.taskQueues && tests[i].taskQueue !in CoveredQueues(s.target.testWorkflows)
  }

  lemma {:induction false} TestPlanIsOwn(s: Status, strategy: RolloutStrategy, info: T.VersionInfo,
                                         queues: seq<QueueInfo>)
    requires strategy.gate.Some? && s.target.buildID == info.buildID
    requires TestsApply(s) ==> forall q :: q in s.target.taskQueues ==> QueueOf(q, queues)
    ensures TestsOwn(TestPlan(s, strategy, info.deploymentName), s, info, queues, strategy.gate.value)
  {
    if TestsApply(s) {
      var covered := CoveredQueues(s.target.testWorkflows);
      MissingTestsAreTheUncovered(s.target.taskQueues, covered, strategy.gate.value, info.deploymentName, info.buildID);
    }
  }

  lemma {:induction false} PlannedTestsAreOwn(r: Reading, s: Status)
    requires Read(r, s)
    ensures TestsOwn(Calls(r, s).tests, s, Info(r), r.queues, r.strategy.gate.value)
  {
    StatusHoldsTheScan(r, s);
    ScannedAreSeen(r.queues, Info(r).deploymentName, Info(r).buildID, r.lookup);
    TestPlanIsOwn(s, r.strategy, Info(r), r.queues);
  }

  lemma {:induction false} ScannedAreSeen(queues: seq<QueueInfo>, deploymentName: string, b: BuildID, lookup: Lookup)
    ensures forall q :: q in ScanQueues(queues, deploymentName, b, lookup).queues ==> QueueOf(q, queues)
  {
    ScanIsOfTheQueues(queues, deploymentName, b, lookup);
  }

  lemma {:induction false} PlannedStartsAreOwn(w: World, w': World, c: nat, r: Reading, s: Status)
    requires PlanStep(w, w', c, r, s)
    ensures StartsOwn(w'.pending[c])
  {
    var p, pending := Calls(r, s), w'.pending[c];
    PlannedTestsAreOwn(r, s);
    forall i | 0 <= i < |pending.rest| && pending.rest[i].StartTest?
      ensures IsOwn(pending.rest[i].test, pending.info, pending.queues, pending.gate)
    {
      KindsOfActions(p, [], i);
    }
  }

  lemma {:induction false} StartsStayOwn(p: Pending, p': Pending)
    requires StartsOwn(p) && p.rest != [] && p' == p.(rest := p.rest[1..])
    ensures StartsOwn(p')
  {
    forall i | 0 <= i < |p'.rest| && p'.rest[i].StartTest?
      ensures IsOwn(p'.rest[i].test, p'.info, p'.queues, p'.gate)
    {
      assert p'.rest[i] == p.rest[i + 1];
    }
  }

  ghost predicate AllStartsOwn(w: World) {
    forall c :: c in w.pending ==> StartsOwn(w.pending[c])
  }

  lemma {:induction false} PhaseKeepsStartsOwn(w: World, w': World, c: nat)
    requires Step(w, w') && AllStartsOwn(w) && c in w'.pending
    ensures StartsOwn(w'.pending[c])
  {
    PendingMoves(w, w', c);
    if Keeps(w, w', c) {
      assert StartsOwn(w.pending[c]);
    } else if c in w.pending && ExecuteStep(w, w', c) {
      ExecutingOwnsStarts(w, w', c);
    } else {
      PlansOwnStarts(w, w', c);
    }
  }

  lemma {:induction false} ExecutingOwnsStarts(w: World, w': World, c: nat)
    requires ExecuteStep(w, w', c) && c in w'.pending && StartsOwn(w.pending[c])
    ensures StartsOwn(w'.pending[c])
  {
    StartsStayOwn(w.pending[c], w'.pending[c]);
  }

  lemma {:induction false} PlansOwnStarts(w: World, w': World, c: nat)
    requires Plans(w, w', c)
    ensures c in w'.pending && StartsOwn(w'.pending[c])
  {
    var r, s :| PlanStep(w, w', c, r, s);
    PlannedStartsAreOwn(w, w', c, r, s);
  }

  lemma {:induction false} StepKeepsStartsOwn(w: World, w': World)
    requires Step(w, w') && AllStartsOwn(w)
    ensures AllStartsOwn(w')
  {
    forall c | c in w'.pending
      ensures StartsOwn(w'.pending[c])
    {
      PhaseKeepsStartsOwn(w, w', c);
    }
  }

  lemma {:induction false} ScanKnows(queues: seq<QueueInfo>, deploymentName: string, b: BuildID, lookup: Lookup,
                                     q: string)
    ensures var scan, id := ScanQueues(queues, deploymentName, b, lookup), TestWorkflowID(deploymentName, b, q);
            !scan.failed && q in scan.queues ==>
              && !lookup(id).WorkflowFailed?
              && (lookup(id).WorkflowFound? ==>
                    WorkflowExecution(id, lookup(id).status, lookup(id).taskQueue) in scan.results)
  {
    if queues != [] {
      ScanKnows(queues[..|queues| - 1], deploymentName, b, lookup, q);
    }
  }

  /** If the scan did not fail, a planned start is bound to be refused exactly when the look-up found its
      ID on another queue. */
  lemma {:induction false} StartIsRefusedIff(w: World, r: Reading, s: Status, i: nat)
    requires Read(r, s) && Truthful(r.lookup, w.workflows) && i < |Calls(r, s).tests|
    requires !ScanQueues(r.queues, Info(r).deploymentName, Info(r).buildID, r.lookup).failed
    ensures var test := Calls(r, s).tests[i];
            test.workflowID in w.workflows <==>
            r.lookup(test.workflowID).WorkflowFound? && r.lookup(test.workflowID).taskQueue != test.taskQueue
  {
    var test := Calls(r, s).tests[i];
    PlannedTestsAreOwn(r, s);
    StatusHoldsTheScan(r, s);
    ScanKnows(r.queues, Info(r).deploymentName, Info(r).buildID, r.lookup, test.taskQueue);
    if r.lookup(test.workflowID).WorkflowFound? {
      var found := WorkflowExecution(test.workflowID, r.lookup(test.workflowID).status,
          r.lookup(test.workflowID).taskQueue);
      assert found in s.target.testWorkflows;
      assert found.taskQueue in CoveredQueues(s.target.testWorkflows);
    }
  }

  lemma {:induction false} UncoveredIsPlanned(s: Status, strategy: RolloutStrategy, info: T.VersionInfo, q: string)
    requires strategy.gate.Some? && TestsApply(s) && s.target.buildID == info.buildID
    requires q in s.target.taskQueues && q !in CoveredQueues(s.target.testWorkflows)
    ensures Planned(IDFor(info, q), TestPlan(s, strategy, info.deploymentName))
  {
    var covered := CoveredQueues(s.target.testWorkflows);
    MissingTestsAreTheUncovered(s.target.taskQueues, covered, strategy.gate.value, info.deploymentName, info.buildID);
  }

  function ScanOf(r: Reading): Scan
    requires r.target in r.ts.versions
  {
    ScanQueues(r.queues, Info(r).deploymentName, Info(r).buildID, r.lookup)
  }

  /** The look-up found q's gate workflow on another queue, and none on q. */
  ghost predicate Misplaced(r: Reading, q: string)
    requires r.target in r.ts.versions
  {
    && q in ScanOf(r).queues && q !in CoveredQueues(ScanOf(r).results)
    && r.lookup(IDFor(Info(r), q)).WorkflowFound? && r.lookup(IDFor(Info(r), q)).taskQueue != q
  }

  /** The ID of queue q is planned to start and known to the server. */
  ghost predicate Refused(w: World, r: Reading, s: Status, q: string)
    requires r.target in r.ts.versions && TargetEntryPresent(s, Filed(r))
  {
    exists i :: 0 <= i < |Calls(r, s).tests| && Calls(r, s).tests[i].taskQueue == q
      && Calls(r, s).tests[i].workflowID in w.workflows
  }

  /** Which planned starts are bound to be refused: after a failed scan those of every queue whose
      workflow exists, otherwise those of the misplaced queues only. */
  lemma {:induction false} RefusedIff(w: World, r: Reading, s: Status, q: string)
    requires Read(r, s) && Truthful(r.lookup, w.workflows) && TestsApply(s)
    ensures Refused(w, r, s, q) <==>
            if ScanOf(r).failed then q in ScanOf(r).queues && IDFor(Info(r), q) in w.workflows else Misplaced(r, q)
  {
    if Refused(w, r, s, q) {
      RefusedHasReason(w, r, s, q);
    } else if if ScanOf(r).failed then q in ScanOf(r).queues && IDFor(Info(r), q) in w.workflows else Misplaced(r, q) {
      ReasonIsRefused(w, r, s, q);
    }
  }

  lemma {:induction false} RefusedHasReason(w: World, r: Reading, s: Status, q: string)
    requires Read(r, s) && Truthful(r.lookup, w.workflows) && TestsApply(s) && Refused(w, r, s, q)
    ensures q in ScanOf(r).queues && IDFor(Info(r), q) in w.workflows && (!ScanOf(r).failed ==> Misplaced(r, q))
  {
    var tests := Calls(r, s).tests;
    StatusHoldsTheScan(r, s);
    PlannedTestsAreOwn(r, s);
    var i :| 0 <= i < |tests| && tests[i].taskQueue == q && tests[i].workflowID in w.workflows;
    if !ScanOf(r).failed {
      StartIsRefusedIff(w, r, s, i);
    }
  }

  lemma {:induction false} ReasonIsRefused(w: World, r: Reading, s: Status, q: string)
    requires Read(r, s) && Truthful(r.lookup, w.workflows) && TestsApply(s)
    requires if ScanOf(r).failed then q in ScanOf(r).queues && IDFor(Info(r), q) in w.workflows else Misplaced(r, q)
    ensures Refused(w, r, s, q)
  {
    ReasonIsUncovered(w, r, s, q);
    UncoveredIsPlanned(s, r.strategy, Info(r), q);
    PlannedIsOfItsQueue(w, r, s, q);
  }

  lemma {:induction false} ReasonIsUncovered(w: World, r: Reading, s: Status, q: string)
    requires Read(r, s) && Truthful(r.lookup, w.workflows) && TestsApply(s)
    requires if ScanOf(r).failed then q in ScanOf(r).queues && IDFor(Info(r), q) in w.workflows else Misplaced(r, q)
    ensures q in s.target.taskQueues && q !in CoveredQueues(s.target.testWorkflows)
    ensures s.target.buildID == Info(r).buildID && IDFor(Info(r), q) in w.workflows
  {
    StatusHoldsTheScan(r, s);
  }

  lemma {:induction false} PlannedIsOfItsQueue(w: World, r: Reading, s: Status, q: string)
    requires Read(r, s) && Planned(IDFor(Info(r), q), Calls(r, s).tests) && IDFor(Info(r), q) in w.workflows
    ensures Refused(w, r, s, q)
  {
    var tests := Calls(r, s).tests;
    var i :| 0 <= i < |tests| && tests[i].workflowID == IDFor(Info(r), q);
    PlannedTestsAreOwn(r, s);
    WorkflowIDInjectiveInQueue(Info(r).deploymentName, Info(r).buildID, tests[i].taskQueue, q);
  }

  /** Build v1 has a gate workflow on its queue x-main. Build v1-x is about to have its queue main tested. */
  function SharedID(): World {
    World(map[TestWorkflowID("d", "v1", "x-main") := Workflow(Running, "x-main")], [], map[], map[])
  }

  function ReadingOfV1x(): Reading {
    var info := T.VersionInfo("d", "v1-x", Inactive, None, [], [], false, false);
    var workflows := SharedID().workflows;
    Reading(map[], T.NOTHING_OBSERVED.(versions := map["v1-x" := info]), "v1-x", [QueueInfo("main", true)],
            id => if id in workflows then WorkflowFound(workflows[id].status, workflows[id].taskQueue)
              else WorkflowNotFound,
            RolloutStrategy(AllAtOnce, Some("gate"), []), 0)
  }

  /** Its start is refused, time and again. */
  lemma {:induction false} SharedIDIsRefused()
    ensures var r := ReadingOfV1x();
            var s := Status(None, MapTargetWithRamp("v1-x", map[], Coarse(Filed(r))), [], None, "", 1);
            Read(r, s) && Truthful(r.lookup, SharedID().workflows) && TestsApply(s) && Refused(SharedID(), r, s, "main")
  {
    var r := ReadingOfV1x();
    var s := Status(None, MapTargetWithRamp("v1-x", map[], Coarse(Filed(r))), [], None, "", 1);
    BuildsShareAWorkflowID("d");
    assert |"main"| != |"x-main"|;
    assert r.queues[..0] == [];
    assert ScanOf(r) == Scan(["main"], [WorkflowExecution(IDFor(Info(r), "main"), Running, "x-main")], false);
    CoarseKeepsCount(Filed(r));
    RefusedIff(SharedID(), r, s, "main");
  }

  // Own queues

  /** A workflow with a gate ID of the build runs on the queue the ID names. Other workflows are free. */
  ghost predicate OwnQueues(w: World, deploymentName: string, b: BuildID) {
    forall q :: var id := TestWorkflowID(deploymentName, b, q);
                id in w.workflows ==> w.workflows[id].taskQueue == q
  }

  /** The queues a reconcile saw give it no ID that is the build's for another queue. For the build itself
      that is always so, and for others unless IDs coincide. */
  ghost predicate KeepsApart(p: Pending, deploymentName: string, b: BuildID) {
    forall r, q :: QueueOf(r, p.queues) && IDFor(p.info, r) == TestWorkflowID(deploymentName, b, q) ==> r == q
  }

  lemma {:induction false} OwnBuildKeepsApart(p: Pending)
    ensures KeepsApart(p, p.info.deploymentName, p.info.buildID)
  {
    forall r, q | IDFor(p.info, r) == TestWorkflowID(p.info.deploymentName, p.info.buildID, q)
      ensures r == q
    {
      WorkflowIDInjectiveInQueue(p.info.deploymentName, p.info.buildID, r, q);
    }
  }

  /** Whoever is not the controller starts workflows under the build's gate IDs on their own queues only. */
  ghost predicate OutsidersComply(w: World, w': World, deploymentName: string, b: BuildID) {
    w'.started == w.started ==>
      forall q :: var id := TestWorkflowID(deploymentName, b, q);
                  id in w'.workflows && id !in w.workflows ==> w'.workflows[id].taskQueue == q
  }

  lemma {:induction false} StartKeepsOwnQueues(w: World, w': World, c: nat, deploymentName: string, b: BuildID)
    requires ExecuteStep(w, w', c) && StartsOwn(w.pending[c]) && KeepsApart(w.pending[c], deploymentName, b)
    requires OwnQueues(w, deploymentName, b)
    ensures OwnQueues(w', deploymentName, b)
  {
    if w'.workflows != w.workflows {
      var p := w.pending[c];
      var test := p.rest[0].test;
      assert QueueOf(test.taskQueue, p.queues) && test.workflowID == IDFor(p.info, test.taskQueue);
      forall q | TestWorkflowID(deploymentName, b, q) in w'.workflows
        ensures w'.workflows[TestWorkflowID(deploymentName, b, q)].taskQueue == q
      {
        if TestWorkflowID(deploymentName, b, q) == test.workflowID {
          assert test.taskQueue == q;
        }
      }
    }
  }

  lemma {:induction false} OthersKeepOwnQueues(w: World, w': World, deploymentName: string, b: BuildID)
    requires OtherStep(w, w') && OutsidersComply(w, w', deploymentName, b) && OwnQueues(w, deploymentName, b)
    ensures OwnQueues(w', deploymentName, b)
  {
    forall q | TestWorkflowID(deploymentName, b, q) in w'.workflows
      ensures w'.workflows[TestWorkflowID(deploymentName, b, q)].taskQueue == q
    {
      assert TestWorkflowID(deploymentName, b, q) in w.workflows
        ==> w.workflows[TestWorkflowID(deploymentName, b, q)].taskQueue == q;
    }
  }

  ghost predicate OthersKeepApart(w: World, deploymentName: string, b: BuildID) {
    forall c :: c in w.pending && !IsOf(w.pending[c], deploymentName, b) ==> KeepsApart(w.pending[c], deploymentName, b)
  }

  lemma {:induction false} StepKeepsOwnQueues(w: World, w': World, deploymentName: string, b: BuildID)
    requires Step(w, w') && AllStartsOwn(w) && OthersKeepApart(w, deploymentName, b)
             && OutsidersComply(w, w', deploymentName, b)
    requires OwnQueues(w, deploymentName, b)
    ensures OwnQueues(w', deploymentName, b)
  {
    if OtherStep(w, w') {
      OthersKeepOwnQueues(w, w', deploymentName, b);
    } else if c: nat :| ExecuteStep(w, w', c) {
      OwnBuildKeepsApart(w.pending[c]);
      StartKeepsOwnQueues(w, w', c, deploymentName, b);
    } else {
      assert w'.workflows == w.workflows;
    }
  }

  /** What is asked of a run: to begin with, and of outsiders, own queues for the build's gate IDs; of the
      reconciles, that none is of a build whose IDs coincide with the build's. */
  ghost predicate Separate(run: seq<World>, deploymentName: string, b: BuildID) {
    && (run != [] ==> OwnQueues(run[0], deploymentName, b))
    && (forall i :: 0 <= i < |run| ==> OthersKeepApart(run[i], deploymentName, b))
    && (forall i :: 0 <= i < |run| - 1 ==> OutsidersComply(run[i], run[i + 1], deploymentName, b))
  }

  /** The controllers' own starts keep every queue's gate workflow on its queue. */
  lemma {:induction false} QueuesStayOwn(run: seq<World>, k: nat, deploymentName: string, b: BuildID)
    requires IsRun(run) && k < |run| && Separate(run, deploymentName, b)
    ensures OwnQueues(run[k], deploymentName, b) && AllStartsOwn(run[k])
  {
    if k > 0 {
      QueuesStayOwn(run, k - 1, deploymentName, b);
      RunStepIsSeparate(run, k - 1, deploymentName, b);
      StepKeepsStartsOwn(run[k - 1], run[k]);
      StepKeepsOwnQueues(run[k - 1], run[k], deploymentName, b);
    } else {
      NothingPendingStarts(run[0]);
    }
  }

  lemma {:induction false} RunStepIsSeparate(run: seq<World>, k: nat, deploymentName: string, b: BuildID)
    requires IsRun(run) && k + 1 < |run| && Separate(run, deploymentName, b)
    ensures Step(run[k], run[k + 1]) && OthersKeepApart(run[k], deploymentName, b)
    ensures OutsidersComply(run[k], run[k + 1], deploymentName, b)
  {
  }

  lemma {:induction false} NothingPendingStarts(w: World)
    requires w.pending == map[]
    ensures AllStartsOwn(w)
  {
  }

  /** With every gate workflow on its own queue, a scan that did not fail plans only starts that
      nobody has made yet. */
  lemma {:induction false} SoundScanPlansNewStarts(w: World, r: Reading, s: Status, i: nat)
    requires Read(r, s) && Truthful(r.lookup, w.workflows) && i < |Calls(r, s).tests|
             && OwnQueues(w, Info(r).deploymentName, Info(r).buildID)
    requires !ScanQueues(r.queues, Info(r).deploymentName, Info(r).buildID, r.lookup).failed
    ensures Calls(r, s).tests[i].workflowID !in w.workflows
  {
    var test := Calls(r, s).tests[i];
    StartIsRefusedIff(w, r, s, i);
    PlannedTestsAreOwn(r, s);
    assert test.workflowID == TestWorkflowID(Info(r).deploymentName, Info(r).buildID, test.taskQueue);
  }

  // A completed execution tests every queue

  ghost predicate ToStart(id: string, rest: seq<Action>) {
    exists i :: 0 <= i < |rest| && rest[i].StartTest? && rest[i].test.workflowID == id
  }

  /** Each queue to be tested has its workflow, or its start is still to come. */
  ghost predicate QueuesCovered(p: Pending, w: World) {
    forall q :: q in p.tested ==> IDFor(p.info, q) in w.workflows || ToStart(IDFor(p.info, q), p.rest)
  }

  /** A workflow the scan found on a queue is that queue's own. */
  lemma {:induction false} FoundWorkflowIsTheQueues(w: World, info: T.VersionInfo, queues: seq<QueueInfo>,
                                                    lookup: Lookup, wf: WorkflowExecution)
    requires Remembers(lookup, w) && OwnQueues(w, info.deploymentName, info.buildID)
    requires wf in ScanQueues(queues, info.deploymentName, info.buildID, lookup).results
    ensures IDFor(info, wf.taskQueue) in w.workflows
  {
    ScanIsOfTheQueues(queues, info.deploymentName, info.buildID, lookup);
    var r :| QueueOf(r, queues) && wf.workflowID == TestWorkflowID(info.deploymentName, info.buildID, r)
             && lookup(wf.workflowID) == WorkflowFound(wf.status, wf.taskQueue);
    assert w.workflows[wf.workflowID].taskQueue == wf.taskQueue;
    assert wf.taskQueue == r;
  }

  lemma {:induction false} TestsCoverQueues(w: World, s: Status, info: T.VersionInfo, queues: seq<QueueInfo>,
                                            lookup: Lookup,
                           strategy: RolloutStrategy, q: string)
    requires Remembers(lookup, w) && OwnQueues(w, info.deploymentName, info.buildID)
    requires strategy.gate.Some? && TestsApply(s) && s.target.buildID == info.buildID
    requires forall wf :: wf in s.target.testWorkflows ==>
               wf in ScanQueues(queues, info.deploymentName, info.buildID, lookup).results
    requires q in s.target.taskQueues
    ensures IDFor(info, q) in w.workflows || Planned(IDFor(info, q), TestPlan(s, strategy, info.deploymentName))
  {
    if q in CoveredQueues(s.target.testWorkflows) {
      var wf :| wf in s.target.testWorkflows && wf.taskQueue == q;
      FoundWorkflowIsTheQueues(w, info, queues, lookup, wf);
    } else {
      UncoveredIsPlanned(s, strategy, info, q);
    }
  }

  lemma {:induction false} PlannedQueuesAreCovered(w: World, w': World, c: nat, r: Reading, s: Status)
    requires PlanStep(w, w', c, r, s) && Remembers(r.lookup, w) && OwnQueues(w, Info(r).deploymentName, Info(r).buildID)
    ensures QueuesCovered(w'.pending[c], w')
  {
    var p := Calls(r, s);
    var pending := w'.pending[c];
    CallsInOrder(p);
    StatusHoldsTheScan(r, s);
    forall q | q in pending.tested
      ensures IDFor(pending.info, q) in w'.workflows || ToStart(IDFor(pending.info, q), pending.rest)
    {
      TestsCoverQueues(w, s, Info(r), r.queues, r.lookup, r.strategy, q);
      if i :| 0 <= i < |p.tests| && p.tests[i].workflowID == IDFor(pending.info, q) {
        assert pending.rest[i] == StartTest(p.tests[i]);
      }
    }
  }

  lemma {:induction false} StartsAdvance(id: string, w: World, w': World, c: nat)
    requires ExecuteStep(w, w', c) && c in w'.pending
    requires id in w.workflows || ToStart(id, w.pending[c].rest)
    ensures id in w'.workflows || ToStart(id, w'.pending[c].rest)
  {
    var rest := w.pending[c].rest;
    if id !in w'.workflows {
      var i :| 0 <= i < |rest| && rest[i].StartTest? && rest[i].test.workflowID == id;
      assert w'.pending[c].rest[i - 1] == rest[i];
    }
  }

  lemma {:induction false} AdvancesCovered(w: World, w': World, c: nat)
    requires ExecuteStep(w, w', c) && c in w'.pending && QueuesCovered(w.pending[c], w)
    ensures QueuesCovered(w'.pending[c], w')
  {
    forall q | q in w'.pending[c].tested
      ensures IDFor(w'.pending[c].info, q) in w'.workflows || ToStart(IDFor(w'.pending[c].info, q), w'.pending[c].rest)
    {
      StartsAdvance(IDFor(w.pending[c].info, q), w, w', c);
    }
  }

  lemma {:induction false} StaysCovered(p: Pending, w: World, w': World)
    requires Grows(w, w') && QueuesCovered(p, w)
    ensures QueuesCovered(p, w')
  {
  }

  predicate IsOf(p: Pending, deploymentName: string, b: BuildID) {
    p.info.deploymentName == deploymentName && p.info.buildID == b
  }

  ghost predicate AllCovered(w: World, deploymentName: string, b: BuildID) {
    forall c :: c in w.pending && IsOf(w.pending[c], deploymentName, b) ==> QueuesCovered(w.pending[c], w)
  }

  lemma {:induction false} PhaseStaysCovered(w: World, w': World, c: nat, deploymentName: string, b: BuildID)
    requires Step(w, w') && Grows(w, w') && AllRemembered(w) && AllCovered(w, deploymentName, b)
             && OwnQueues(w, deploymentName, b)
    requires c in w'.pending && IsOf(w'.pending[c], deploymentName, b)
    ensures QueuesCovered(w'.pending[c], w')
  {
    PendingMoves(w, w', c);
    if Keeps(w, w', c) {
      StaysCovered(w.pending[c], w, w');
    } else if c in w.pending && ExecuteStep(w, w', c) {
      assert IsOf(w.pending[c], deploymentName, b);
      AdvancesCovered(w, w', c);
    } else {
      PlansCover(w, w', c, deploymentName, b);
    }
  }

  lemma {:induction false} PlansCover(w: World, w': World, c: nat, deploymentName: string, b: BuildID)
    requires Plans(w, w', c) && AllRemembered(w) && OwnQueues(w, deploymentName, b)
    requires c in w'.pending && IsOf(w'.pending[c], deploymentName, b)
    ensures QueuesCovered(w'.pending[c], w')
  {
    var r, s :| PlanStep(w, w', c, r, s);
    HeardIsRemembered(w, c, r.lookup);
    PlannedQueuesAreCovered(w, w', c, r, s);
  }

  lemma {:induction false} StepGrows(w: World, w': World)
    requires Step(w, w')
    ensures Grows(w, w')
  {
  }

  lemma {:induction false} QueuesStayCovered(w: World, w': World, deploymentName: string, b: BuildID)
    requires Step(w, w') && AllRemembered(w) && AllCovered(w, deploymentName, b) && OwnQueues(w, deploymentName, b)
    ensures AllCovered(w', deploymentName, b)
  {
    StepGrows(w, w');
    forall c | c in w'.pending && IsOf(w'.pending[c], deploymentName, b)
      ensures QueuesCovered(w'.pending[c], w')
    {
      PhaseStaysCovered(w, w', c, deploymentName, b);
    }
  }

  lemma {:induction false} BeforeStep(run: seq<World>, k: nat, deploymentName: string, b: BuildID)
    requires IsRun(run) && k < |run| && Separate(run, deploymentName, b)
    ensures OwnQueues(run[k], deploymentName, b) && AllRemembered(run[k])
  {
    ScansAreRemembered(run, k);
    QueuesStayOwn(run, k, deploymentName, b);
  }

  lemma {:induction false} RunStepCovers(run: seq<World>, k: nat, deploymentName: string, b: BuildID)
    requires IsRun(run) && k + 1 < |run| && Separate(run, deploymentName, b)
    requires AllCovered(run[k], deploymentName, b)
    ensures AllCovered(run[k + 1], deploymentName, b)
  {
    BeforeStep(run, k, deploymentName, b);
    QueuesStayCovered(run[k], run[k + 1], deploymentName, b);
  }

  lemma {:induction false} AllQueuesCovered(run: seq<World>, k: nat, deploymentName: string, b: BuildID)
    requires IsRun(run) && k < |run| && Separate(run, deploymentName, b)
    ensures AllCovered(run[k], deploymentName, b)
  {
    if k > 0 {
      AllQueuesCovered(run, k - 1, deploymentName, b);
      RunStepCovers(run, k - 1, deploymentName, b);
    } else {
      NothingPendingIsCovered(run, deploymentName, b);
    }
  }

  lemma {:induction false} NothingPendingIsCovered(run: seq<World>, deploymentName: string, b: BuildID)
    requires IsRun(run)
    ensures AllCovered(run[0], deploymentName, b)
  {
  }

  /** A reconcile of the build that makes all its calls leaves every queue it had to see tested with
      exactly one gate workflow of the build. */
  lemma {:induction false} CompletedExecutionTestsEveryQueue(run: seq<World>, k: nat, c: nat, deploymentName: string,
                                                             b: BuildID, q: string)
    requires IsRun(run) && k < |run| && Separate(run, deploymentName, b)
    requires c in run[k].pending && IsOf(run[k].pending[c], deploymentName, b)
    requires run[k].pending[c].rest == [] && q in run[k].pending[c].tested
    ensures TestWorkflowID(deploymentName, b, q) in run[k].workflows
    ensures run[k].workflows[TestWorkflowID(deploymentName, b, q)].taskQueue == q
    ensures forall r :: var id := TestWorkflowID(deploymentName, b, r);
                        id in run[k].workflows && run[k].workflows[id].taskQueue == q ==> r == q
  {
    AllQueuesCovered(run, k, deploymentName, b);
    QueuesStayOwn(run, k, deploymentName, b);
    assert !ToStart(IDFor(run[k].pending[c].info, q), []);
    assert IDFor(run[k].pending[c].info, q) in run[k].workflows;
  }
}
