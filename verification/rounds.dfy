/** What one reconcile plans, said from what the server answered and the cluster showed: when routing
    changes and how, which gate workflows start, which Deployments are sized, updated and counted. */
module Rounds {
  import opened Api
  import opened Kubernetes
  import opened PodTemplates
  import opened Rollout
  import opened Planner
  import opened StateMapper
  import opened Gate
  import opened DriftUpdates
  import opened Decisions
  import opened Execution
  import opened Controller
  import opened Serving
  import opened RolloutLoop
  import GateRuns
  import T = Temporal

  // What is observed

  /** Neither current nor ramping, as the server routes. */
  predicate Unrouted(v: T.WorkerVersion, routing: T.RoutingConfig) {
    routing.current != Some(v) && routing.ramping != Some(v)
  }

  /** Where each summarized version stands: the routing decides, then its drainage; one that has drained
      and is no longer known counts as not registered. */
  lemma {:induction false} VersionStands(r: Round, i: nat)
    requires Observes(r) && Describes(r.server) && i < |Summaries(r.server)|
    ensures var routing, summary := Routing(r.server), Summaries(r.server)[i];
            var v, b := summary.version, summary.version.buildID;
            var status, drain := StatusIn(b, r.o.ts), r.server.answers.drain(b);
            && b in r.o.ts.versions
            && (status == Current <==> routing.current == Some(v))
            && (status == Ramping <==> routing.current != Some(v) && routing.ramping == Some(v))
            && (status == Inactive <==> Unrouted(v, routing) && summary.drainage.Unspecified?)
            && (status == Draining <==> Unrouted(v, routing) && summary.drainage.Draining?)
            && (status == Drained <==> Unrouted(v, routing) && summary.drainage.Drained? && !drain.DrainNotFound?)
            && (status == NotRegistered <==> Unrouted(v, routing) && summary.drainage.Drained? && drain.DrainNotFound?)
            && r.o.ts.versions[b].drainedSince
               == if status == Drained && drain.DrainedAt? then Some(drain.since) else None
  {
    var c := T.Context(Routing(r.server), r.server.answers, r.podsOf, r.cfg.target, r.cfg.strategy.strategy);
    SummaryDecides(r, i);
    ObservedSummaries(r, Summaries(r.server)[i].version.buildID);
    T.EachSummaryStands(Summaries(r.server), c, i);
  }

  /** No other version is registered. */
  lemma {:induction false} OnlySummarizedAreRegistered(r: Round, b: BuildID)
    requires Observes(r) && Describes(r.server)
    ensures b in r.o.ts.versions <==>
            exists i :: 0 <= i < |Summaries(r.server)| && Summaries(r.server)[i].version.buildID == b
  {
    var c := T.Context(Routing(r.server), r.server.answers, r.podsOf, r.cfg.target, r.cfg.strategy.strategy);
    ObservedSummaries(r, b);
    T.VersionsAreSummarized(Summaries(r.server), c, b);
  }

  /** The target's ramp is the server's, its times cut to the second. */
  lemma {:induction false} RampIsTheServers(r: Round)
    requires IsRound(r) && r.cfg.target != "" && Describes(r.server)
    ensures var routing, target := Routing(r.server), r.s.target;
            if T.BuildIDOf(routing.ramping) == r.cfg.target then
              && target.rampPercentage == Some(routing.rampPercentage)
              && target.rampingSince == Some(WholeSecond(routing.versionChangedTime))
              && target.rampLastModifiedAt == Some(WholeSecond(routing.percentageChangedTime))
            else
              target.rampPercentage.None? && target.rampingSince.None? && target.rampLastModifiedAt.None?
  {
    CoarseTarget(r.cfg.target, r.o.view, r.o.ts);
    RampIsDescribed(r);
    RampingSinceIsDescribed(r);
  }

  lemma {:induction false} RampingSinceIsDescribed(r: Round)
    requires Observes(r) && r.server.describe.Described?
    ensures r.o.ts.rampingSince
            == if Routing(r.server).ramping.Some? then Some(Routing(r.server).versionChangedTime) else None
  {
  }

  // Routing

  /** The target's Deployment was seen, and available. */
  predicate Healthy(r: Round) {
    r.cfg.target in r.o.view && r.o.view[r.cfg.target].healthySince.Some?
  }

  /** No gate, or every workflow queue of a target that is not current has its own completed workflow. */
  ghost predicate GateOpen(r: Round) {
    r.cfg.strategy.gate.Some? ==>
      && r.cfg.target in r.o.ts.versions && r.cfg.target != r.o.ts.currentBuildID
      && EveryQueuePassed(r.o.ts.versions[r.cfg.target], r.server.version, r.server.lookup)
  }

  /** The routing was last written by the controller, by the server to make room, or by nobody; or its
      writer leaves it to the controller. */
  predicate Owned(r: Round) {
    || r.o.ts.lastModifierIdentity in {r.cfg.identity, "try-delete-for-add-version", ""}
    || r.o.ts.ignoreLastModifier
  }

  ghost predicate Ready(r: Round) {
    && Healthy(r) && StatusIn(r.cfg.target, r.o.ts) != NotRegistered
    && r.cfg.strategy.strategy != Manual && Owned(r) && GateOpen(r)
  }

  /** The current version's flag, set to true, says that the routing is the controller's. */
  predicate Flagged(server: Server)
    requires server.describe.Described?
  {
    && Routing(server).current.Some?
    && server.answers.flag(Routing(server).current.value.buildID) == T.FlagValue("true")
  }

  /** The same from the server's answers. */
  lemma {:induction false} OwnedIff(r: Round)
    requires Observes(r) && r.server.describe.Described?
    ensures Owned(r) <==>
            || r.server.describe.description.lastModifierIdentity
               in {r.cfg.identity, "try-delete-for-add-version", ""}
            || Flagged(r.server)
  {
  }

  /** A reconcile comes to nothing exactly if the deployment cannot be described, or if somebody else
      wrote the routing and the current version's flag cannot be read; nor can it, for want of a current
      version, while another one ramps. */
  lemma {:induction false} ObservingFailsIff(server: Server, podsOf: map<BuildID, nat>, cfg: Config)
    ensures Observe(server, podsOf, cfg).Err? <==>
            || server.describe.DescribeFailed?
            || (&& server.describe.Described?
                && server.describe.description.lastModifierIdentity !in {cfg.identity, ""}
                && if Routing(server).current.Some?
                   then server.answers.flag(Routing(server).current.value.buildID).FlagFailed?
                   else Routing(server).ramping.Some?)
  {
  }

  predicate Settled(r: Round) {
    r.o.ts.currentBuildID == r.cfg.target
  }

  /** Nothing is current yet, and unversioned pollers are not confirmed for all of the target's queues. */
  predicate AtOnce(r: Round) {
    && r.o.ts.currentBuildID == "" && StatusIn(r.cfg.target, r.o.ts) == Inactive
    && !r.o.ts.versions[r.cfg.target].allTaskQueuesHaveUnversionedPoller
  }

  function Promotion(r: Round): RoutingChange {
    RoutingChange(r.o.ts.conflictToken, r.cfg.target, true, 0)
  }

  function RampTo(r: Round, percentage: int32): RoutingChange {
    RoutingChange(r.o.ts.conflictToken, r.cfg.target, false, percentage)
  }

  /** What the planner is shown of the target and the current version. */
  lemma {:induction false} TargetShown(r: Round)
    requires IsRound(r) && r.cfg.target != ""
    ensures r.s.target.buildID == r.cfg.target && r.s.target.status == StatusIn(r.cfg.target, r.o.ts)
    ensures r.s.target.healthySince.Some? <==> Healthy(r)
    ensures r.s.current.Some? <==> r.o.ts.currentBuildID != ""
    ensures r.s.current.Some? ==> r.s.current.value.buildID == r.o.ts.currentBuildID
    ensures r.s.conflictToken == r.o.ts.conflictToken && r.s.lastModifierIdentity == r.o.ts.lastModifierIdentity
  {
    CoarseTarget(r.cfg.target, r.o.view, r.o.ts);
  }

  lemma {:induction false} RampShown(r: Round)
    requires IsRound(r) && r.cfg.target != ""
    ensures r.s.target.rampPercentage
            == if r.o.ts.rampingBuildID == r.cfg.target then Some(r.o.ts.rampPercentage) else None
    ensures r.o.ts.rampingBuildID == r.cfg.target ==> r.o.ts.rampLastModifiedAt.Some?
    ensures r.s.target.rampLastModifiedAt
            == if r.o.ts.rampingBuildID == r.cfg.target then Shown(r.o.ts.rampLastModifiedAt) else None
  {
    CoarseTarget(r.cfg.target, r.o.view, r.o.ts);
    RampIsDescribed(r);
  }

  lemma {:induction false} GateOpenIff(r: Round)
    requires IsRound(r) && r.cfg.target != ""
    ensures GateOpen(r) <==> (r.cfg.strategy.gate.Some? ==> GatePassed(r.s.target))
  {
    var ts := FreshlyObserved(r.server, r.podsOf, r.cfg);
    GateOpensIff(r.s, r.o.view, ts, r.cfg.target, r.server.version, r.server.lookup);
  }

  /** No reconcile changes the routing unless the target is healthy, registered and through its gate, and
      the routing is the controller's to change. */
  lemma {:induction false} ChangeNeedsReadiness(r: Round)
    requires IsRound(r) && r.cfg.target != "" && r.p.change.Some?
    ensures Ready(r)
  {
    TargetShown(r);
    GateOpenIff(r);
  }

  /** Once the target is current, only another version's ramp is withdrawn. */
  lemma {:induction false} SettledOnlyWithdraws(r: Round)
    requires IsRound(r) && r.cfg.target != "" && Ready(r) && Settled(r)
    ensures r.p.change
            == if r.o.ts.rampingBuildID != "" then Some(RoutingChange(r.o.ts.conflictToken, "", false, 0)) else None
  {
    TargetShown(r);
    GateOpenIff(r);
  }

  /** With nothing current and no unversioned pollers to spare, the target is set current at once; so it is
      under AllAtOnce. */
  lemma {:induction false} PromotedAtOnce(r: Round)
    requires IsRound(r) && r.cfg.target != "" && Ready(r) && !Settled(r)
    requires AtOnce(r) || r.cfg.strategy.strategy == AllAtOnce
    ensures r.p.change == Some(Promotion(r))
  {
    TargetShown(r);
    GateOpenIff(r);
  }

  /** The rollout as the server has it. */
  function LoopState(r: Round): State {
    if r.o.ts.rampingBuildID == r.cfg.target && r.o.ts.rampLastModifiedAt.Some?
    then Rolling(Some(r.o.ts.rampPercentage), r.o.ts.rampLastModifiedAt.value)
    else Rolling(None, 0)
  }

  lemma {:induction false} ProgressiveIsDecided(r: Round)
    requires IsRound(r) && r.cfg.target != "" && Ready(r) && !Settled(r) && !AtOnce(r)
    requires r.cfg.strategy.strategy == Progressive
    ensures var state := LoopState(r);
            var shown := if state.ramp.Some? then Some(WholeSecond(state.since)) else None;
            r.p.change == match ProgressiveDecision(r.cfg.strategy.steps, r.o.now, shown, state.ramp)
                          case Hold => None
                          case SetRamp(p) => Some(RampTo(r, p))
                          case Promote => Some(Promotion(r))
  {
    TargetShown(r);
    RampShown(r);
    GateOpenIff(r);
  }

  /** Otherwise a progressive rollout makes the move that the closed loop makes, so all that holds of the
      loop, its order, its pauses, its end, holds of the changes planned. */
  lemma {:induction false} ProgressiveFollowsTheLoop(r: Round)
    requires IsRound(r) && r.cfg.target != "" && Ready(r) && !Settled(r) && !AtOnce(r)
    requires r.cfg.strategy.strategy == Progressive
    ensures var state, change := LoopState(r), r.p.change;
            var state' := RolloutLoop.Reconcile(r.cfg.strategy.steps, state, r.o.now);
            && (change.None? ==> state' == state)
            && (change.Some? && change.value.setCurrent ==> state' == Promoted && change == Some(Promotion(r)))
            && (change.Some? && !change.value.setCurrent ==>
                  && state' == Rolling(Some(change.value.rampPercentage as real), r.o.now)
                  && change == Some(RampTo(r, change.value.rampPercentage)))
  {
    ProgressiveIsDecided(r);
  }

  lemma {:induction false} AtOnceIff(r: Round, i: nat)
    requires Observes(r) && Describes(r.server) && i < |Summaries(r.server)|
    requires Summaries(r.server)[i].version.buildID == r.cfg.target
    ensures var routing, summary := Routing(r.server), Summaries(r.server)[i];
            AtOnce(r) <==>
            && T.BuildIDOf(routing.current) == ""
            && Unrouted(summary.version, routing) && summary.drainage.Unspecified?
            && !(routing.current.None? && r.cfg.strategy.strategy == Progressive
                 && r.server.answers.allQueuesHaveUnversionedPoller)
  {
    var c := T.Context(Routing(r.server), r.server.answers, r.podsOf, r.cfg.target, r.cfg.strategy.strategy);
    T.EachSummaryStands(Summaries(r.server), c, i);
    VersionStands(r, i);
  }

  /** A first rollout, from the server's answers: nothing is current, the target is registered and not
      routed. It is set current at once, unless the strategy is progressive and every queue of the
      target is confirmed to have unversioned pollers; then it begins with the first step. */
  lemma {:induction false} FirstRollout(r: Round, i: nat)
    requires IsRound(r) && r.cfg.target != "" && Ready(r) && Describes(r.server)
    requires Routing(r.server).current.None? && i < |Summaries(r.server)|
    requires var summary := Summaries(r.server)[i];
             && summary.version.buildID == r.cfg.target && summary.drainage.Unspecified?
             && T.BuildIDOf(Routing(r.server).ramping) != r.cfg.target
    ensures var gradual := r.cfg.strategy.strategy == Progressive && r.server.answers.allQueuesHaveUnversionedPoller;
            var steps := r.cfg.strategy.steps;
            r.p.change
            == if !gradual then Some(Promotion(r))
               else if steps == [] then None
               else Some(RampTo(r, steps[0].rampPercentage))
  {
    AtOnceIff(r, i);
    ObservedSummaries(r, r.cfg.target);
    RampIsDescribed(r);
    if AtOnce(r) {
      PromotedAtOnce(r);
    } else {
      ProgressiveFollowsTheLoop(r);
      if r.cfg.strategy.steps != [] {
        NoRampStartsAtFirst(r);
      } else {
        NoStepsNoChange(r);
      }
    }
  }

  lemma {:induction false} NoRampStartsAtFirst(r: Round)
    requires IsRound(r) && r.cfg.target != "" && Ready(r) && !Settled(r) && !AtOnce(r)
    requires r.cfg.strategy.strategy == Progressive && r.cfg.strategy.steps != []
    requires r.o.ts.rampingBuildID != r.cfg.target
    ensures r.p.change == Some(RampTo(r, r.cfg.strategy.steps[0].rampPercentage))
  {
    ProgressiveIsDecided(r);
  }

  lemma {:induction false} NoStepsNoChange(r: Round)
    requires IsRound(r) && r.cfg.target != "" && Ready(r) && !Settled(r) && !AtOnce(r)
    requires r.cfg.strategy.strategy == Progressive && r.cfg.strategy.steps == []
    ensures r.p.change.None?
  {
    ProgressiveIsDecided(r);
  }

  /** The flags removed are those of the ramping and the current version, and only with a change that
      needed a flag. */
  lemma {:induction false} FlagsRemovedIff(r: Round, b: BuildID)
    requires IsRound(r)
    ensures b in r.p.unflag <==>
            && r.o.ts.ignoreLastModifier && r.p.change.Some?
            && b != "" && (b == r.o.ts.rampingBuildID || b == r.o.ts.currentBuildID)
  {
  }

  // Gate workflows

  /** Every gate workflow planned is of the gate's type, pinned to the target, on a workflow queue of the
      target that was seen, under that queue's ID. */
  lemma {:induction false} TestsAreTheGates(r: Round, i: nat)
    requires IsRound(r) && r.cfg.target != "" && i < |r.p.tests|
    ensures var test := r.p.tests[i];
            && r.cfg.strategy.gate == Some(test.workflowType) && test.buildID == r.cfg.target
            && test.workflowID == TestWorkflowID(r.cfg.deploymentName, r.cfg.target, test.taskQueue)
            && r.server.version.VersionFound? && GateRuns.QueueOf(test.taskQueue, r.server.version.queues)
  {
    var ts := FreshlyObserved(r.server, r.podsOf, r.cfg);
    ShowsTheScan(r.s, r.o.view, ts, r.cfg.target, r.server.version, r.server.lookup);
    TestPlanIsTheGates(r.s, r.cfg.strategy, r.cfg.deploymentName);
    if r.server.version.VersionFound? && r.cfg.target in ts.versions {
      var info := ts.versions[r.cfg.target];
      GateRuns.ScannedAreSeen(r.server.version.queues, info.deploymentName, info.buildID, r.server.lookup);
    }
  }

  lemma {:induction false} TestPlanIsTheGates(s: Status, strategy: RolloutStrategy, deploymentName: string)
    ensures var tests := TestPlan(s, strategy, deploymentName);
            forall i :: 0 <= i < |tests| ==>
              && strategy.gate == Some(tests[i].workflowType) && tests[i].buildID == s.target.buildID
              && tests[i].workflowID == TestWorkflowID(deploymentName, s.target.buildID, tests[i].taskQueue)
              && tests[i].taskQueue in s.target.taskQueues && GateRuns.TestsApply(s)
  {
    if strategy.gate.Some? && GateRuns.TestsApply(s) {
      GateRuns.MissingTestsAreTheUncovered(s.target.taskQueues, CoveredQueues(s.target.testWorkflows),
                                           strategy.gate.value, deploymentName, s.target.buildID);
    }
  }

  // Sizes

  /** The current version, the target and a ramping version want the spec's replicas; what has no
      replicas set is given them only as the target. */
  lemma {:induction false} RoutedWantTheSpec(o: Observed, b: BuildID)
    requires DrainsKnown(o) && b in o.view && b in o.later && b != ""
    requires b == o.ts.currentBuildID || b == o.target || StatusIn(b, o.ts) == Ramping
    ensures WantedSize(b, o)
            == if o.later[b].replicas == Some(o.sizing.replicas)
                  || (o.later[b].replicas.None? && (b == o.ts.currentBuildID || b != o.target))
               then None else Some(o.sizing.replicas)
  {
  }

  /** The routed versions and the target are brought to the spec's replicas. */
  lemma {:induction false} RoutedAreScaledIff(r: Round, b: BuildID)
    requires IsRound(r) && DistinctRefs(r.o.view) && b in r.o.view && b in r.o.later && b != ""
    requires b == r.o.ts.currentBuildID || b == r.cfg.target || StatusIn(b, r.o.ts) == Ramping
    ensures r.o.view[b].ref in r.p.scales <==>
            && r.o.later[b].replicas != Some(r.cfg.sizing.replicas)
            && (r.o.later[b].replicas.Some? || (b == r.cfg.target && b != r.o.ts.currentBuildID))
    ensures r.o.view[b].ref in r.p.scales ==> r.p.scales[r.o.view[b].ref] == r.cfg.sizing.replicas
  {
    RoundScales(r, b);
    StoredStatus(r.o, b);
    RoutedWantTheSpec(AsStored(r.o), b);
  }

  predicate HasReplicas(b: BuildID, view: View) {
    b in view && view[b].replicas.Some? && view[b].replicas.value > 0
  }

  lemma {:induction false} InactiveWantNone(o: Observed, b: BuildID)
    requires DrainsKnown(o) && IsDeprecated(b, o.view, o.ts, o.target) && StatusIn(b, o.ts) == Inactive
    ensures WantedSize(b, o) == if HasReplicas(b, o.later) then Some(0) else None
  {
  }

  /** A version that never was routed is brought to no replicas, unless it is the target. */
  lemma {:induction false} InactiveAreScaledIff(r: Round, b: BuildID)
    requires IsRound(r) && DistinctRefs(r.o.view)
    requires IsDeprecated(b, r.o.view, r.o.ts, r.cfg.target) && StatusIn(b, r.o.ts) == Inactive
    ensures r.o.view[b].ref in r.p.scales <==> HasReplicas(b, r.o.later)
    ensures r.o.view[b].ref in r.p.scales ==> r.p.scales[r.o.view[b].ref] == 0
  {
    RoundScales(r, b);
    StoredStatus(r.o, b);
    InactiveWantNone(AsStored(r.o), b);
  }

  lemma {:induction false} DrainedWantNone(o: Observed, b: BuildID)
    requires DrainsKnown(o) && IsDeprecated(b, o.view, o.ts, o.target) && StatusIn(b, o.ts) == Drained && b in o.later
    ensures o.ts.versions[b].drainedSince.Some?
    ensures WantedSize(b, o)
            == if o.now - o.ts.versions[b].drainedSince.value > o.sizing.scaledownDelay
                  && HasReplicas(b, o.later) then Some(0) else None
  {
    assert DrainKnown(MapDeprecated(b, o.view, o.ts), o.later);
  }

  lemma {:induction false} StoredDrain(o: Observed, b: BuildID)
    requires b in o.ts.versions
    ensures b in AsStored(o).ts.versions
            && AsStored(o).ts.versions[b].drainedSince == Shown(o.ts.versions[b].drainedSince)
  {
  }

  /** A drained version is brought to no replicas once it has been drained longer than the scale-down
      delay, counted from the whole second, and not before. */
  lemma {:induction false} DrainedAreScaledIff(r: Round, b: BuildID)
    requires IsRound(r) && DistinctRefs(r.o.view) && b in r.o.later
    requires IsDeprecated(b, r.o.view, r.o.ts, r.cfg.target) && StatusIn(b, r.o.ts) == Drained
    ensures r.o.ts.versions[b].drainedSince.Some?
    ensures r.o.view[b].ref in r.p.scales <==>
            && HasReplicas(b, r.o.later)
            && r.o.now > WholeSecond(r.o.ts.versions[b].drainedSince.value) + r.cfg.sizing.scaledownDelay
    ensures r.o.view[b].ref in r.p.scales ==> r.p.scales[r.o.view[b].ref] == 0
  {
    RoundScales(r, b);
    StoredStatus(r.o, b);
    StoredDrain(r.o, b);
    DrainedWantNone(AsStored(r.o), b);
  }

  lemma {:induction false} OthersWantNoSize(o: Observed, b: BuildID)
    requires DrainsKnown(o) && IsDeprecated(b, o.view, o.ts, o.target) && StatusIn(b, o.ts) in {Draining, NotRegistered}
    ensures WantedSize(b, o).None?
  {
  }

  /** Draining and unregistered versions are left at their size. */
  lemma {:induction false} OthersAreNotScaled(r: Round, b: BuildID)
    requires IsRound(r) && DistinctRefs(r.o.view)
    requires IsDeprecated(b, r.o.view, r.o.ts, r.cfg.target) && StatusIn(b, r.o.ts) in {Draining, NotRegistered}
    ensures r.o.view[b].ref !in r.p.scales
  {
    RoundScales(r, b);
    StoredStatus(r.o, b);
    OthersWantNoSize(AsStored(r.o), b);
  }

  // The version count

  /** A version no longer counts against the cap once the server says that it has drained, and that its
      queues have no versioned pollers, which is asked only when it has no pods left. */
  lemma {:induction false} EligibleIff(r: Round, i: nat)
    requires Observes(r) && Describes(r.server) && i < |Summaries(r.server)|
    ensures var summary := Summaries(r.server)[i];
            var b, drain := summary.version.buildID, r.server.answers.drain(summary.version.buildID);
            Eligible(b, r.o.ts) <==>
            && Unrouted(summary.version, Routing(r.server)) && summary.drainage.Drained?
            && drain.DrainedAt? && drain.noVersionedPollers
            && (b in r.podsOf ==> r.podsOf[b] == 0)
  {
    var c := T.Context(Routing(r.server), r.server.answers, r.podsOf, r.cfg.target, r.cfg.strategy.strategy);
    T.EachSummaryStands(Summaries(r.server), c, i);
    VersionStands(r, i);
  }

  /** The versions that count against the cap: seen, neither current nor target, and not eligible. */
  ghost function Counted(r: Round): set<BuildID> {
    set b | b in r.o.view && IsDeprecated(b, r.o.view, r.o.ts, r.cfg.target) && !Eligible(b, r.o.ts)
  }

  lemma {:induction false} StoredCount(r: Round)
    requires Observes(r)
    ensures Ineligible(r.o.view, AsStored(r.o).ts) - {"", r.o.ts.currentBuildID, r.cfg.target} == Counted(r)
  {
  }

  lemma {:induction false} RoundCreates(r: Round)
    requires IsRound(r)
    ensures r.p.create == if WantsCreate(AsStored(r.o), r.cfg.maxIneligible) then Some(r.cfg.target) else None
  {
    CreateIsExact(r.s, AsStored(r.o), r.cfg.maxIneligible);
  }

  /** The target's Deployment is created exactly if it has none and fewer versions count than the cap. */
  lemma {:induction false} CreatedIff(r: Round)
    requires IsRound(r) && r.cfg.target != ""
    ensures r.p.create
            == if r.cfg.target !in r.o.view && |Counted(r)| < r.cfg.maxIneligible then Some(r.cfg.target) else None
  {
    RoundCreates(r);
    StoredCount(r);
  }

  // Updates

  /** Every version that the reconcile knows of is checked: the target for both kinds of drift, every
      other for connection drift. */
  lemma {:induction false} UpdatedIff(r: Round, b: BuildID)
    requires IsRound(r) && r.cfg.target != "" && b in r.snaps
    ensures b in r.p.updates <==>
            || (b == r.cfg.target && TemplateDrifted(r.snaps[b].template, r.cfg.spec, r.cfg.hashes))
            || (b != "" && (b in r.o.view || b == r.o.ts.currentBuildID || b == r.cfg.target)
                && ConnectionDrifted(r.snaps[b].template, r.cfg.connection, r.cfg.hashes))
  {
    TargetShown(r);
    ListedBuilds(r.s, AsStored(r.o));
    var others := DesiredBy(r.s, r.cfg.spec, r.cfg.connection, r.cfg.hashes).others;
    assert b in others <==> b != "" && ((b != r.cfg.target && b in r.o.view) || b == r.o.ts.currentBuildID);
  }

  /** The updates at work: whatever the status maps, no version's Deployment keeps an old connection, the
      target's keeps no old template, and a Deployment without drift is left as it was. */
  method UpdateEveryVersion(k8s: DeploymentState, s: Status, ghost view: View, ghost ts: T.TemporalState,
                            spec: DeploymentSpec, c: ConnectionSpec, h: Hashes)
    returns (updates: seq<Deployment>)
    requires k8s.Valid() && IsStatus(s, view, ts, s.target.buildID) && s.target.buildID != ""
    modifies k8s.deployments.Values
    ensures forall b :: b in k8s.deployments && b in view && b != "" ==>
              !ConnectionDrifted(k8s.deployments[b].template, c, h)
    ensures s.target.buildID in k8s.deployments ==>
              !ConnectionDrifted(k8s.deployments[s.target.buildID].template, c, h)
              && !TemplateDrifted(k8s.deployments[s.target.buildID].template, spec, h)
    ensures forall b :: b in k8s.deployments
                        && !ConnectionDrifted(old(k8s.deployments[b].template), c, h)
                        && !(b == s.target.buildID && TemplateDrifted(old(k8s.deployments[b].template), spec, h)) ==>
              Snap(k8s.deployments[b]) == old(Snap(k8s.deployments[b]))
  {
    ghost var was, w := Snaps(k8s), DesiredBy(s, spec, c, h);
    ghost var builds;
    updates, builds := GetUpdateDeployments(k8s, s, spec, c, h);
    forall b | b in k8s.deployments
      ensures !Drifts(b, k8s.deployments[b].template, w)
      ensures b in view && b != "" ==> b == w.target || b in w.others
    {
      UpdatedDoesNotDrift(k8s.deployments[b], b, was[b], w);
      if b in view && b != "" {
        AllAreChecked(s, view, ts, b, spec, c, h);
      }
    }
  }

  lemma {:induction false} AllAreChecked(s: Status, view: View, ts: T.TemporalState, b: BuildID,
                                         spec: DeploymentSpec, c: ConnectionSpec, h: Hashes)
    requires IsStatus(s, view, ts, s.target.buildID) && b in view && b != ""
    ensures b == DesiredBy(s, spec, c, h).target || b in DesiredBy(s, spec, c, h).others
  {
    StatusPartitions(s, view, ts, s.target.buildID, b);
    if i :| 0 <= i < |s.deprecated| && s.deprecated[i].buildID == b {
      assert s.deprecated[i] in s.deprecated;
    }
  }
}
