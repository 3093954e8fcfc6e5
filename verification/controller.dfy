/** One reconcile: observe the cluster and the server, map the status, plan, execute
    (internal/controller/worker_controller.go and genplan.go, GeneratePlan of internal/planner/planner.go). */
module Controller {
  import opened Api
  import opened PodTemplates
  import opened BuildIds
  import opened Kubernetes
  import opened StateMapper
  import opened Planner
  import opened Gate
  import opened DriftUpdates
  import opened Decisions
  import opened Execution
  import T = Temporal

  /** The identity under which the server makes room for a new version. */
  const SERVER_DELETE_IDENTITY := "try-delete-for-add-version"

  /** The resource, the connection and the controller's own settings. */
  datatype Config = Config(
    identity: string,
    target: BuildID,
    deploymentName: string,
    strategy: RolloutStrategy,
    sizing: Sizing,
    maxIneligible: int,
    spec: DeploymentSpec,
    connection: ConnectionSpec,
    hashes: Hashes)

  /** Whoever wrote the routing config last leaves it to the controller: the controller itself, the
      server making room, nobody, or somebody who set the ignore flag. */
  predicate MayRoute(lastModifier: string, ignore: bool, identity: string) {
    lastModifier == identity || lastModifier == SERVER_DELETE_IDENTITY || lastModifier == "" || ignore
  }

  function EffectiveStrategy(strategy: RolloutStrategy, lastModifier: string, ignore: bool,
                             identity: string): RolloutStrategy {
    if MayRoute(lastModifier, ignore, identity) then strategy else strategy.(strategy := Manual)
  }

  function NonEmpty(b: BuildID): seq<BuildID> {
    if b != "" then [b] else []
  }

  function FlagsToRemove(ts: T.TemporalState, changes: bool): seq<BuildID> {
    if ts.ignoreLastModifier && changes then NonEmpty(ts.rampingBuildID) + NonEmpty(ts.currentBuildID) else []
  }

  ghost predicate SizesPlanned(p: Plan, s: Status, view: View, found: bool, cfg: Config, now: Time)
    requires AllDrainsKnown(s.deprecated, view)
  {
    && p.create == (if s.target.deployment.None? && CountIneligible(s.deprecated) < cfg.maxIneligible
                    then Some(cfg.target) else None)
    && p.deletes == DeletePlan(s.deprecated, view, cfg.sizing, found, s.target.buildID, now)
    && p.scales == ScalePlan(s, view, cfg.sizing, now)
  }

  /** The updates are the drifted Deployments, each once, in an order that is left open. */
  ghost predicate UpdatesPlanned(p: Plan, s: Status, snaps: map<BuildID, Snapshot>, cfg: Config) {
    && (forall b :: b in p.updates <==>
          b in snaps && Drifts(b, snaps[b].template, DesiredBy(s, cfg.spec, cfg.connection, cfg.hashes)))
    && (forall i, j :: 0 <= i < j < |p.updates| ==> p.updates[i] != p.updates[j])
  }

  /** The part of the plan that concerns Deployments. */
  ghost predicate ClusterPlanned(p: Plan, s: Status, view: View, snaps: map<BuildID, Snapshot>, found: bool,
                                 cfg: Config, now: Time)
    requires AllDrainsKnown(s.deprecated, view)
  {
    SizesPlanned(p, s, view, found, cfg, now) && UpdatesPlanned(p, s, snaps, cfg)
  }

  ghost predicate RoutingPlanned(p: Plan, s: Status, ts: T.TemporalState, cfg: Config, now: Time)
    requires TargetEntryPresent(s, ts)
  {
    && p.tests == TestPlan(s, cfg.strategy, cfg.deploymentName)
    && p.change == VersionDiff(s, ts,
         EffectiveStrategy(cfg.strategy, s.lastModifierIdentity, ts.ignoreLastModifier, cfg.identity), now)
    && p.unflag == FlagsToRemove(ts, p.change.Some?)
  }

  function LabelsOf(ds: seq<Deployment>): seq<BuildID>
    requires forall i :: 0 <= i < |ds| ==> BUILD_ID_LABEL in ds[i].labels
  {
    seq(|ds|, i requires 0 <= i < |ds| => ds[i].labels[BUILD_ID_LABEL])
  }

  method PlanCluster(k8s: DeploymentState, s: Status, found: bool, cfg: Config, now: Time) returns (p: Plan)
    requires k8s.Valid() && AllDrainsKnown(s.deprecated, k8s.View())
    modifies k8s.deployments.Values
    ensures ClusterPlanned(p, s, old(k8s.View()), old(Snaps(k8s)), found, cfg, now)
  {
    ghost var deletedBuilds, updatedBuilds;
    var deletes, scales, shouldCreate, updates;
    deletes, deletedBuilds := GetDeleteDeployments(k8s, s, cfg.sizing, found, now);
    scales := GetScaleDeployments(k8s, s, cfg.sizing, now);
    shouldCreate := ShouldCreateDeployment(s, cfg.maxIneligible);
    updates, updatedBuilds := GetUpdateDeployments(k8s, s, cfg.spec, cfg.connection, cfg.hashes);
    assert LabelsOf(deletes) == deletedBuilds;
    assert LabelsOf(updates) == updatedBuilds;
    p := Plan(if shouldCreate then Some(cfg.target) else None, LabelsOf(deletes), scales, LabelsOf(updates), [], None,
        []);
  }

  /** The strategy is overwritten when the routing config is somebody else's. */
  method PlanRouting(p: Plan, s: Status, state: T.TemporalWorkerState, cfg: Config, now: Time) returns (p': Plan)
    requires TargetEntryPresent(s, state.Value())
    ensures RoutingPlanned(p', s, state.Value(), cfg, now)
    ensures p' == p.(tests := p'.tests, change := p'.change, unflag := p'.unflag)
  {
    var strategy := cfg.strategy;
    if s.lastModifierIdentity != cfg.identity && s.lastModifierIdentity != SERVER_DELETE_IDENTITY
       && s.lastModifierIdentity != "" && !state.ignoreLastModifier {
      strategy := strategy.(strategy := Manual);
    }
    var tests := GetTestWorkflows(s, strategy, cfg.deploymentName);
    var vcfg := GetVersionConfigDiff(s, state, strategy, now);
    var unflag: seq<BuildID> := [];
    if state.ignoreLastModifier && vcfg != null {
      if state.rampingBuildID != "" {
        unflag := unflag + [state.rampingBuildID];
      }
      if state.currentBuildID != "" {
        unflag := unflag + [state.currentBuildID];
      }
    }
    p' := p.(tests := tests, change := ChangeOf(vcfg), unflag := unflag);
  }

  /** generatePlan and GeneratePlan. */
  method GeneratePlan(k8s: DeploymentState, s: Status, state: T.TemporalWorkerState, cfg: Config, now: Time)
    returns (p: Plan)
    requires k8s.Valid() && AllDrainsKnown(s.deprecated, k8s.View()) && TargetEntryPresent(s, state.Value())
    modifies k8s.deployments.Values
    ensures ClusterPlanned(p, s, old(k8s.View()), old(Snaps(k8s)), |state.versions| > 0, cfg, now)
    ensures RoutingPlanned(p, s, state.Value(), cfg, now)
  {
    p := PlanCluster(k8s, s, |state.versions| > 0, cfg, now);
    p := PlanRouting(p, s, state, cfg, now);
  }

  // The pointers the planner follows are there

  /** A mapped status always has the entry that the fast-track test looks up. */
  lemma {:induction false} TargetIsPresent(s: Status, view: View, ts: T.TemporalState, target: BuildID)
    requires IsRead(s, view, ts, target)
    ensures TargetEntryPresent(s, ts)
  {
  }

  /** The drain times are known if no question about one failed otherwise than by NotFound. */
  lemma {:induction false} AnsweredDrainsAreKnown(d: T.Description, ignore: bool, c: T.Context, answer: VersionAnswer,
                                                  lookup: Lookup, b: BuildID)
    requires !c.answers.drain(b).DrainFailed?
    ensures var ts := WithGate(T.ObservedState(d, ignore, c), c.target, answer, lookup);
            b in ts.versions && ts.versions[b].status == Drained ==> ts.versions[b].drainedSince.Some?
  {
    T.VersionsAreSummarized(d.summaries, c, b);
  }

  /** What the server answers during one reconcile. */
  datatype Server = Server(
    describe: T.DescribeAnswer,
    answers: T.Answers,
    version: VersionAnswer,
    lookup: Lookup)

  /** The state a reconcile plans from, if reading it does not fail. */
  function Observe(server: Server, podsOf: map<BuildID, nat>, cfg: Config): Result<T.TemporalState, T.ObserveError> {
    match server.describe
    case DescribeFailed => Err(T.DescribeError)
    case DescribeNotFound => Ok(WithGate(T.NOTHING_OBSERVED, cfg.target, server.version, server.lookup))
    case Described(d) =>
      var ignore := T.IgnoreLastModifier(d, server.answers.flag, cfg.identity);
      if ignore.Err? then Err(ignore.error) else
      Ok(WithGate(T.ObservedState(d, ignore.value,
          T.Context(d.routing, server.answers, podsOf, cfg.target, cfg.strategy.strategy)),
                  cfg.target, server.version, server.lookup))
  }

  /** Every drained version that the first look shows has its drain time. */
  ghost predicate DrainTimesKnown(o: Observed) {
    forall b :: b in o.view && StatusIn(b, o.ts) == Drained ==> o.ts.versions[b].drainedSince.Some?
  }

  lemma {:induction false} ObservedDrainsAreKnown(server: Server, podsOf: map<BuildID, nat>, cfg: Config, o: Observed)
    requires Observe(server, podsOf, cfg) == Ok(o.ts)
    requires forall b :: b in o.view ==> !server.answers.drain(b).DrainFailed?
    ensures DrainTimesKnown(o)
  {
    if server.describe.Described? {
      var d := server.describe.description;
      var c := T.Context(d.routing, server.answers, podsOf, cfg.target, cfg.strategy.strategy);
      forall b | b in o.view
        ensures StatusIn(b, o.ts) == Drained ==> o.ts.versions[b].drainedSince.Some?
      {
        AnsweredDrainsAreKnown(d, o.ts.ignoreLastModifier, c, server.version, server.lookup, b);
      }
    }
  }

  /** One reconcile: what the server answered, what was observed, the Deployments at the second look, the
      status as stored, the plan. */
  datatype Round = Round(
    server: Server,
    podsOf: map<BuildID, nat>,
    cfg: Config,
    o: Observed,
    snaps: map<BuildID, Snapshot>,
    s: Status,
    p: Plan)

  ghost predicate Observes(r: Round) {
    Observe(r.server, r.podsOf, r.cfg) == Ok(r.o.ts) && r.o.target == r.cfg.target && r.o.sizing == r.cfg.sizing
  }

  ghost predicate IsRound(r: Round) {
    && Observes(r)
    && StatusFor(r.s, AsStored(r.o)) && DrainsKnown(AsStored(r.o)) && TargetEntryPresent(r.s, r.o.ts)
    && PlanFrom(r.p, r.s, AsStored(r.o), r.cfg.maxIneligible)
    && r.snaps.Keys == r.o.later.Keys && UpdatesPlanned(r.p, r.s, r.snaps, r.cfg)
    && RoutingPlanned(r.p, r.s, r.o.ts, r.cfg, r.o.now)
  }

  /** What one description of the server guarantees: a target that ramps has the time of its last ramp
      change, so a rollout cannot stall for want of it, and a registered target has its entry in the
      version map. */
  lemma {:induction false} NoStallNoMissingEntry(r: Round)
    requires IsRound(r) && r.cfg.target != ""
    ensures r.s.target.rampPercentage.Some? <==> r.s.target.rampLastModifiedAt.Some?
    ensures r.server.describe.Described? ==>
              var routing := r.server.describe.description.routing;
              && (r.s.target.rampPercentage.Some? <==> T.BuildIDOf(routing.ramping) == r.cfg.target)
              && (r.s.target.rampPercentage.Some? ==>
                    && r.s.target.rampPercentage.value == routing.rampPercentage
                    && r.s.target.rampLastModifiedAt.value == WholeSecond(routing.percentageChangedTime))
    ensures r.s.target.status != NotRegistered ==> r.cfg.target in r.o.ts.versions
  {
    RampIsDescribed(r);
    CoarseTarget(r.cfg.target, r.o.view, r.o.ts);
  }

  /** The ramp fields of the observed state are the server's, and a version ramps only if it is routed. */
  lemma {:induction false} RampIsDescribed(r: Round)
    requires Observes(r) && r.cfg.target != ""
    ensures StatusIn(r.cfg.target, r.o.ts) == Ramping ==> r.o.ts.rampingBuildID == r.cfg.target
    ensures r.o.ts.rampingBuildID == r.cfg.target ==> r.o.ts.rampLastModifiedAt.Some?
    ensures r.server.describe.Described? ==>
              var routing := r.server.describe.description.routing;
              && r.o.ts.rampingBuildID == T.BuildIDOf(routing.ramping)
              && r.o.ts.rampPercentage == routing.rampPercentage
              && (routing.ramping.Some? ==> r.o.ts.rampLastModifiedAt == Some(routing.percentageChangedTime))
  {
    if r.server.describe.Described? {
      var d := r.server.describe.description;
      var c := T.Context(d.routing, r.server.answers, r.podsOf, r.cfg.target, r.cfg.strategy.strategy);
      RampingIsRouted(d.summaries, c, r.cfg.target);
    }
  }

  /** The plan deletes and scales exactly what was observed calls for. */
  lemma {:induction false} RoundDeletes(r: Round, b: BuildID)
    requires IsRound(r)
    ensures DrainsKnown(AsStored(r.o)) && (b in r.p.deletes <==> WantsDelete(b, AsStored(r.o)))
  {
    DeletePlanIsExact(r.s, AsStored(r.o), b);
  }

  lemma {:induction false} RoundScales(r: Round, b: BuildID)
    requires IsRound(r) && DistinctRefs(r.o.view) && b in r.o.view
    ensures DrainsKnown(AsStored(r.o))
    ensures var wanted, ref := WantedSize(b, AsStored(r.o)), r.o.view[b].ref;
            if wanted.Some? then ref in r.p.scales && r.p.scales[ref] == wanted.value else ref !in r.p.scales
  {
    ScalePlanOf(r.s, AsStored(r.o), b);
  }

  /** Whatever the look-ups answered, a reconcile that plans a routing change under a gate has seen every
      workflow queue of the target with its own completed gate workflow. */
  lemma {:induction false} GatedChangeMeansEveryQueuePassed(r: Round)
    requires IsRound(r) && r.cfg.target != "" && r.cfg.strategy.gate.Some? && r.p.change.Some?
    ensures r.cfg.target in r.o.ts.versions
    ensures EveryQueuePassed(r.o.ts.versions[r.cfg.target], r.server.version, r.server.lookup)
  {
    var strategy := EffectiveStrategy(r.cfg.strategy, r.s.lastModifierIdentity, r.o.ts.ignoreLastModifier,
        r.cfg.identity);
    var ts := FreshlyObserved(r.server, r.podsOf, r.cfg);
    GateSoundness(r.s, r.o.view, ts, r.cfg.target, r.server.version, r.server.lookup, strategy, r.o.now);
  }

  /** The observed state before the gate is filed. */
  lemma {:induction false} FreshlyObserved(server: Server, podsOf: map<BuildID, nat>, cfg: Config)
    returns (ts: T.TemporalState)
    requires Observe(server, podsOf, cfg).Ok?
    ensures FreshEntry(ts, cfg.target)
    ensures Observe(server, podsOf, cfg) == Ok(WithGate(ts, cfg.target, server.version, server.lookup))
  {
    match server.describe
    case DescribeNotFound =>
      ts := T.NOTHING_OBSERVED;
    case Described(d) =>
      var ignore := T.IgnoreLastModifier(d, server.answers.flag, cfg.identity).value;
      var c := T.Context(d.routing, server.answers, podsOf, cfg.target, cfg.strategy.strategy);
      ts := T.ObservedState(d, ignore, c);
      ObservedEntriesAreFresh(d, ignore, c, cfg.target);
  }

  /** Asking for the drain time of d's version does not fail otherwise than by NotFound. */
  predicate DrainAnswered(d: Deployment, answers: T.Answers) {
    BUILD_ID_LABEL in d.labels ==> !answers.drain(d.labels[BUILD_ID_LABEL]).DrainFailed?
  }

  ghost predicate Answered(items: seq<Deployment>, answers: T.Answers) {
    forall i :: 0 <= i < |items| ==> DrainAnswered(items[i], answers)
  }

  method ObserveAndMap(items: seq<Deployment>, server: Server, podsOf: map<BuildID, nat>, cfg: Config)
    returns (r: Result<(Status, T.TemporalWorkerState), T.ObserveError>, ghost o: Observed)
    requires Answered(items, server.answers)
    ensures r.Ok? <==> Observe(server, podsOf, cfg).Ok?
    ensures r.Ok? ==>
              && fresh(r.value.1) && r.value.1.Value() == o.ts && StatusFor(r.value.0, o) && DrainTimesKnown(o)
              && Observe(server, podsOf, cfg) == Ok(o.ts) && o.target == cfg.target && o.sizing == cfg.sizing
              && Sees(o.view, items)
  {
    o := Observed(map[], T.NOTHING_OBSERVED, map[], cfg.target, cfg.sizing, 0);
    var k8s := GetDeploymentState(items);
    var observed := T.GetWorkerDeploymentState(server.describe, server.answers, podsOf, cfg.target,
                                               cfg.strategy.strategy, cfg.identity);
    if observed.Err? {
      return Err(observed.error), o;
    }
    var state := observed.value;
    var status := GenerateStatus(k8s, state, cfg.target, server.version, server.lookup);
    o := o.(view := k8s.View(), ts := state.Value());
    forall b | b in o.view
      ensures !server.answers.drain(b).DrainFailed?
    {
      assert NewestOf(k8s.deployments[b], b, items);
    }
    ObservedDrainsAreKnown(server, podsOf, cfg, o);
    r := Ok((status, state));
  }

  method ReadAgain(items: seq<Deployment>)
    returns (k8s: DeploymentState, ghost view: View, ghost snaps: map<BuildID, Snapshot>)
    requires forall i :: 0 <= i < |items| ==> items[i].replicas.Some?
    ensures k8s.Valid() && k8s.deployments.Values <= set d | d in items
    ensures view == k8s.View() && snaps == Snaps(k8s) && snaps.Keys == view.Keys
    ensures (forall b :: b in view ==> view[b].replicas.Some?) && Sees(view, items)
  {
    k8s := GetDeploymentState(items);
    view, snaps := k8s.View(), Snaps(k8s);
    forall b | b in k8s.deployments
      ensures k8s.deployments[b] in items && k8s.deployments[b].replicas.Some?
    {
      assert NewestOf(k8s.deployments[b], b, items);
    }
  }

  /** Drain times are known from the first look at the cluster, replica counts from the second. */
  lemma {:induction false} StoredIsPlannable(mapped: Status, o: Observed)
    requires StatusFor(mapped, o) && DrainTimesKnown(o) && forall b :: b in o.later ==> o.later[b].replicas.Some?
    ensures StatusFor(Stored(mapped), AsStored(o)) && DrainsKnown(AsStored(o))
    ensures AllDrainsKnown(Stored(mapped).deprecated, o.later) && TargetEntryPresent(Stored(mapped), o.ts)
  {
    StoredIsRead(mapped, o.view, o.ts, o.target);
    TargetIsPresent(Stored(mapped), o.view, o.ts, o.target);
    StatusDrainsKnown(Stored(mapped), AsStored(o));
  }

  /** The plan for the stored status and the second look is the plan for what was observed. */
  lemma {:induction false} PlanIsOfTheRound(p: Plan, s: Status, o: Observed, cfg: Config)
    requires StatusFor(s, AsStored(o)) && DrainsKnown(AsStored(o)) && AllDrainsKnown(s.deprecated, o.later)
    requires SizesPlanned(p, s, o.later, |o.ts.versions| > 0, cfg, o.now) && o.target == cfg.target
             && o.sizing == cfg.sizing
    ensures PlanFrom(p, s, AsStored(o), cfg.maxIneligible)
  {
    CoarseKeepsCount(o.ts);
  }

  /** The status is stored and read back, and the cluster read again. */
  method StoreAndRead(laterItems: seq<Deployment>, mapped: Status, ghost o: Observed)
    returns (status: Status, k8s: DeploymentState, ghost later: View, ghost snaps: map<BuildID, Snapshot>)
    requires StatusFor(mapped, o) && DrainTimesKnown(o)
    requires forall i :: 0 <= i < |laterItems| ==> laterItems[i].replicas.Some?
    ensures status == Stored(mapped) && k8s.Valid() && k8s.deployments.Values <= set d | d in laterItems
    ensures later == k8s.View() && snaps == Snaps(k8s) && snaps.Keys == later.Keys && Sees(later, laterItems)
    ensures forall b :: b in later ==> later[b].replicas.Some?
    ensures AllDrainsKnown(status.deprecated, later) && TargetEntryPresent(status, o.ts)
  {
    status := Stored(mapped);
    k8s, later, snaps := ReadAgain(laterItems);
    StoredIsPlannable(mapped, o.(later := later));
  }

  /** So the plan is drawn up. */
  method StoreAndPlan(laterItems: seq<Deployment>, mapped: Status, state: T.TemporalWorkerState, cfg: Config, now: Time,
                      ghost o: Observed)
    returns (plan: Plan, ghost later: View, ghost snaps: map<BuildID, Snapshot>)
    requires state.Value() == o.ts && StatusFor(mapped, o) && DrainTimesKnown(o)
    requires forall i :: 0 <= i < |laterItems| ==> laterItems[i].replicas.Some?
    modifies laterItems
    ensures (forall b :: b in later ==> later[b].replicas.Some?) && old(Sees(later, laterItems))
    ensures AllDrainsKnown(Stored(mapped).deprecated, later) && TargetEntryPresent(Stored(mapped), o.ts)
    ensures SizesPlanned(plan, Stored(mapped), later, |o.ts.versions| > 0, cfg, now)
    ensures snaps.Keys == later.Keys && UpdatesPlanned(plan, Stored(mapped), snaps, cfg)
    ensures RoutingPlanned(plan, Stored(mapped), o.ts, cfg, now)
  {
    var status, k8s;
    status, k8s, later, snaps := StoreAndRead(laterItems, mapped, o);
    plan := GeneratePlan(k8s, status, state, cfg, now);
  }

  /** Reconcile: what has reached the servers is a prefix of a plan drawn up from what was observed, and
      nothing if observing failed. The status is stored before the planner reads it, and the cluster is
      read again in between. Of the pointers that the planner follows unchecked, the replica counts are
      the API server's to fill and the drain times depend on how the server answered; the others are
      there. */
  method Reconcile(items: seq<Deployment>, laterItems: seq<Deployment>, server: Server, podsOf: map<BuildID, nat>,
                   cfg: Config, now: Time, servers: Servers)
    returns (ghost round: Option<Round>, ghost order: seq<ObjectReference>, ok: bool)
    requires Answered(items, server.answers) && forall i :: 0 <= i < |laterItems| ==> laterItems[i].replicas.Some?
    modifies servers, laterItems
    ensures round.Some? <==> Observe(server, podsOf, cfg).Ok?
    ensures round.None? ==> !ok && servers.done == old(servers.done)
    ensures round.Some? ==>
              var r := round.value;
              && IsRound(r) && r.server == server && r.podsOf == podsOf && r.cfg == cfg && r.o.now == now
              && old(Sees(r.o.view, items)) && old(Sees(r.o.later, laterItems))
              && ListsKeys(order, r.p.scales)
              && (ok <==> old(servers.willing) >= |ActionsOf(r.p, order)|)
              && (ok ==> forall a :: Times(a, r.p) > 0 ==> a in servers.done)
              && servers.done == old(servers.done)
                                 + if ok then ActionsOf(r.p, order) else ActionsOf(r.p, order)[..old(servers.willing)]
  {
    var observed;
    ghost var o: Observed;
    observed, o := ObserveAndMap(items, server, podsOf, cfg);
    round, order, ok := None, [], false;
    if observed.Ok? {
      var (mapped, state) := observed.value;
      var plan;
      ghost var later, snaps;
      plan, later, snaps := StoreAndPlan(laterItems, mapped, state, cfg, now, o);
      o := o.(later := later, now := now);
      StoredIsPlannable(mapped, o);
      PlanIsOfTheRound(plan, Stored(mapped), o, cfg);
      round := Some(Round(server, podsOf, cfg, o, snaps, Stored(mapped), plan));
      ok, order := ExecutePlan(plan, servers);
      forall a | ok && Times(a, plan) > 0
        ensures a in servers.done
      {
        EveryCallAsListed(plan, order, a);
      }
    }
  }
}
