/** Serving safety, from the server's own account of its versions to the plan that a reconcile draws up:
    what is never deleted or scaled away. */
module Serving {
  import opened Api
  import opened Kubernetes
  import opened Planner
  import opened StateMapper
  import opened Gate
  import opened Decisions
  import opened Execution
  import opened Controller
  import T = Temporal

  /** The server described the deployment, and keeps one summary per build ID. */
  ghost predicate Describes(server: Server) {
    server.describe.Described? && T.UniqueBuildIDs(server.describe.description.summaries)
  }

  function Routing(server: Server): T.RoutingConfig
    requires server.describe.Described?
  {
    server.describe.description.routing
  }

  function Summaries(server: Server): seq<T.VersionSummary>
    requires server.describe.Described?
  {
    server.describe.description.summaries
  }

  ghost predicate Summarized(v: Option<T.WorkerVersion>, server: Server)
    requires server.describe.Described?
  {
    v.Some? ==> exists i :: 0 <= i < |Summaries(server)| && Summaries(server)[i].version == v.value
  }

  ghost predicate RoutedAreSummarized(server: Server) {
    && Describes(server)
    && Summarized(Routing(server).current, server) && Summarized(Routing(server).ramping, server)
  }

  /** The server routes to b, or has not finished with it. */
  ghost predicate InService(b: BuildID, server: Server)
    requires server.describe.Described?
  {
    || T.BuildIDOf(Routing(server).current) == b
    || T.BuildIDOf(Routing(server).ramping) == b
    || (exists i :: 0 <= i < |Summaries(server)| && Summaries(server)[i].version.buildID == b
                    && !Summaries(server)[i].drainage.Drained?)
  }

  /** What is observed of the summaries, the gate workflows filed or not. */
  lemma {:induction false} ObservedSummaries(r: Round, b: BuildID)
    requires Observes(r) && r.server.describe.Described?
    ensures var c := T.Context(Routing(r.server), r.server.answers, r.podsOf, r.cfg.target, r.cfg.strategy.strategy);
            var versions := T.VersionsOf(Summaries(r.server), c);
            && (b in r.o.ts.versions <==> b in versions)
            && (b in versions ==> r.o.ts.versions[b].status == versions[b].status
                                  && r.o.ts.versions[b].drainedSince == versions[b].drainedSince)
    ensures r.o.ts.currentBuildID == T.BuildIDOf(Routing(r.server).current)
  {
  }

  /** A summarized version has, in what the planner sees, the status its summary gives it. */
  lemma {:induction false} SummaryDecides(r: Round, i: nat)
    requires Observes(r) && Describes(r.server) && i < |Summaries(r.server)|
    ensures var summary := Summaries(r.server)[i];
            && summary.version.buildID in r.o.ts.versions
            && StatusIn(summary.version.buildID, r.o.ts)
               == T.StatusOf(summary, Routing(r.server), r.server.answers.drain)
  {
    var c := T.Context(Routing(r.server), r.server.answers, r.podsOf, r.cfg.target, r.cfg.strategy.strategy);
    T.EachSummaryStands(Summaries(r.server), c, i);
    ObservedSummaries(r, Summaries(r.server)[i].version.buildID);
  }

  lemma {:induction false} InServiceStatus(r: Round, b: BuildID)
    requires Observes(r) && RoutedAreSummarized(r.server) && b != "" && InService(b, r.server)
    ensures StatusIn(b, r.o.ts) != Drained && StatusIn(b, r.o.ts) != NotRegistered
    ensures T.BuildIDOf(Routing(r.server).ramping) == b && T.BuildIDOf(Routing(r.server).current) != b ==>
              StatusIn(b, r.o.ts) == Ramping
  {
    var summaries, i: nat := Summaries(r.server), 0;
    if T.BuildIDOf(Routing(r.server).ramping) == b {
      i :| i < |summaries| && summaries[i].version == Routing(r.server).ramping.value;
    } else if T.BuildIDOf(Routing(r.server).current) == b {
      i :| i < |summaries| && summaries[i].version == Routing(r.server).current.value;
    } else {
      i :| i < |summaries| && summaries[i].version.buildID == b && !summaries[i].drainage.Drained?;
    }
    SummaryDecides(r, i);
  }

  /** The plan's deletes and scales are decided on what was observed, the times cut. */
  lemma {:induction false} StoredStatus(o: Observed, b: BuildID)
    ensures StatusIn(b, AsStored(o).ts) == StatusIn(b, o.ts)
    ensures Found(AsStored(o)) <==> o.ts.versions != map[]
  {
    CoarseKeepsCount(o.ts);
  }

  /** If the routed versions appear among the summaries, no reconcile plans to delete the Deployment of a
      version in service or of the target. */
  lemma {:induction false} InServiceIsNotDeleted(r: Round, b: BuildID)
    requires IsRound(r) && RoutedAreSummarized(r.server)
    requires b != "" && (InService(b, r.server) || b == r.cfg.target)
    ensures b !in r.p.deletes
  {
    RoundDeletes(r, b);
    StoredStatus(r.o, b);
    if InService(b, r.server) {
      InServiceStatus(r, b);
    }
  }

  /** None deletes anything if the deployment was not found. */
  lemma {:induction false} NothingFoundNothingDeleted(r: Round, b: BuildID)
    requires IsRound(r) && r.server.describe.DescribeNotFound?
    ensures b !in r.p.deletes
  {
    RoundDeletes(r, b);
    StoredStatus(r.o, b);
  }

  lemma {:induction false} RoutedWantTheirSize(o: Observed, b: BuildID)
    requires DrainsKnown(o) && (b == o.ts.currentBuildID || b == o.target || StatusIn(b, o.ts) == Ramping)
    ensures WantedSize(b, o).Some? ==> WantedSize(b, o).value == o.sizing.replicas
  {
  }

  /** A plan sizes the Deployments of the current, target and ramping versions to the spec's replicas
      or not at all. */
  lemma {:induction false} RoutedKeepTheirSize(r: Round, b: BuildID)
    requires IsRound(r) && RoutedAreSummarized(r.server) && DistinctRefs(r.o.view) && b in r.o.view && b != ""
    requires b in {T.BuildIDOf(Routing(r.server).current), T.BuildIDOf(Routing(r.server).ramping), r.cfg.target}
    ensures r.o.view[b].ref in r.p.scales ==> r.p.scales[r.o.view[b].ref] == r.cfg.sizing.replicas
  {
    RoundScales(r, b);
    ObservedSummaries(r, b);
    StoredStatus(r.o, b);
    if b != r.cfg.target && b != r.o.ts.currentBuildID {
      InServiceStatus(r, b);
    }
    RoutedWantTheirSize(AsStored(r.o), b);
  }

  lemma {:induction false} DrainingWantsNoSize(o: Observed, b: BuildID)
    requires DrainsKnown(o) && IsDeprecated(b, o.view, o.ts, o.target) && StatusIn(b, o.ts) == Draining
    ensures WantedSize(b, o).None?
  {
  }

  /** A deprecated version is left at its size while it drains. */
  lemma {:induction false} DrainingIsNotScaled(r: Round, i: nat)
    requires IsRound(r) && Describes(r.server) && DistinctRefs(r.o.view)
    requires i < |Summaries(r.server)| && Summaries(r.server)[i].drainage.Draining?
    requires var b := Summaries(r.server)[i].version.buildID;
             IsDeprecated(b, r.o.view, r.o.ts, r.cfg.target) && T.BuildIDOf(Routing(r.server).ramping) != b
    ensures r.o.view[Summaries(r.server)[i].version.buildID].ref !in r.p.scales
  {
    var b := Summaries(r.server)[i].version.buildID;
    RoundScales(r, b);
    DrainingIsDraining(r, i);
    DrainingWantsNoSize(AsStored(r.o), b);
  }

  lemma {:induction false} DrainingIsDraining(r: Round, i: nat)
    requires Observes(r) && Describes(r.server)
    requires i < |Summaries(r.server)| && Summaries(r.server)[i].drainage.Draining?
    requires var b := Summaries(r.server)[i].version.buildID;
             b != "" && b != r.o.ts.currentBuildID && T.BuildIDOf(Routing(r.server).ramping) != b
    ensures StatusIn(Summaries(r.server)[i].version.buildID, AsStored(r.o).ts) == Draining
  {
    var b := Summaries(r.server)[i].version.buildID;
    ObservedSummaries(r, b);
    StoredStatus(r.o, b);
    SummaryDecides(r, i);
  }

  /** The ramping version is neither current nor target, and its build ID stands for no other version. */
  ghost predicate RampingIsDeprecated(r: Round)
    requires r.server.describe.Described?
  {
    && Routing(r.server).ramping.Some?
    && IsDeprecated(Routing(r.server).ramping.value.buildID, r.o.view, r.o.ts, r.cfg.target)
    && forall i :: 0 <= i < |Summaries(r.server)|
                   && Summaries(r.server)[i].version.buildID == Routing(r.server).ramping.value.buildID ==>
                     Summaries(r.server)[i].version == Routing(r.server).ramping.value
  }

  /** The condition on the summaries is needed: a ramping version other than the current and the target
      loses its Deployment, if the second look still shows it, exactly when the server summarizes some
      versions but not that one. */
  lemma {:induction false} RampingIsDeletedIff(r: Round)
    requires IsRound(r) && Describes(r.server) && RampingIsDeprecated(r)
    ensures var b := Routing(r.server).ramping.value.buildID;
            b in r.p.deletes <==>
            b in r.o.later && Summaries(r.server) != [] && !Summarized(Routing(r.server).ramping, r.server)
  {
    var b := Routing(r.server).ramping.value.buildID;
    RoundDeletes(r, b);
    StoredStatus(r.o, b);
    RampingIsUnregisteredIff(r);
  }

  lemma {:induction false} RampingIsUnregisteredIff(r: Round)
    requires Observes(r) && Describes(r.server) && RampingIsDeprecated(r)
    ensures StatusIn(Routing(r.server).ramping.value.buildID, r.o.ts)
            == if Summarized(Routing(r.server).ramping, r.server) then Ramping else NotRegistered
    ensures r.o.ts.versions != map[] <==> Summaries(r.server) != []
  {
    var b, summaries := Routing(r.server).ramping.value.buildID, Summaries(r.server);
    var c := T.Context(Routing(r.server), r.server.answers, r.podsOf, r.cfg.target, r.cfg.strategy.strategy);
    ObservedSummaries(r, b);
    if i: nat :| i < |summaries| && summaries[i].version == Routing(r.server).ramping.value {
      SummaryDecides(r, i);
    } else {
      T.VersionsAreSummarized(summaries, c, b);
    }
    if summaries != [] {
      SummaryDecides(r, 0);
    } else {
      assert T.VersionsOf(summaries, c) == map[];
    }
  }

  /** A rollout in progress: the target t is registered and its queue main has been seen, and the server
      ramps version r without summarizing it. */
  function RampingUnsummarized(answers: T.Answers): Server {
    var d := T.Description(T.RoutingConfig(None, Some(T.WorkerVersion("d", "r")), 50.0, 0, 0),
                           [T.VersionSummary(T.WorkerVersion("d", "t"), T.Drainage.Unspecified)], "", 1);
    Server(T.Described(d), answers, VersionFound([QueueInfo("main", true)]), _ => WorkflowNotFound)
  }

  lemma {:induction false} MainIsScanned(lookup: Lookup)
    requires forall id :: lookup(id) == WorkflowNotFound
    ensures ScanQueues([QueueInfo("main", true)], "d", "t", lookup) == Scan(["main"], [], false)
  {
    assert [QueueInfo("main", true)][..0] == [];
  }

  lemma {:induction false} OnlyTargetIsObserved(answers: T.Answers, cfg: Config)
    requires cfg.target == "t"
    ensures var observed := Observe(RampingUnsummarized(answers), map[], cfg);
            && observed.Ok? && observed.value.versions.Keys == {"t"} && observed.value.currentBuildID == ""
            && QueuesIn("t", observed.value) == ["main"]
  {
    var server := RampingUnsummarized(answers);
    var c := T.Context(Routing(server), answers, map[], "t", cfg.strategy.strategy);
    assert Summaries(server)[..0] == [];
    assert T.VersionsOf(Summaries(server), c).Keys == {"t"};
    MainIsScanned(server.lookup);
  }

  lemma {:induction false} UnsummarizedRampingIsDeleted(answers: T.Answers, cfg: Config, ref: ObjectReference,
                                                        now: Time)
    requires cfg.target == "t"
    ensures var observed := Observe(RampingUnsummarized(answers), map[], cfg);
            observed.Ok? &&
            var view := map["r" := DeploymentView(ref, None, Some(3))];
            var o := AsStored(Observed(view, observed.value, view, "t", cfg.sizing, now));
            QueuesIn("t", o.ts) == ["main"] && DrainsKnown(o) && WantsDelete("r", o)
  {
    OnlyTargetIsObserved(answers, cfg);
    var view := map["r" := DeploymentView(ref, None, Some(3))];
    var ts := Observe(RampingUnsummarized(answers), map[], cfg).value;
    UnknownIsDeleted(Observed(view, ts, view, "t", cfg.sizing, now));
  }

  lemma {:induction false} UnknownIsDeleted(o: Observed)
    requires o.view.Keys == o.later.Keys == {"r"} && o.target == "t"
    requires o.ts.versions.Keys == {"t"} && o.ts.currentBuildID == ""
    ensures DrainsKnown(AsStored(o)) && WantsDelete("r", AsStored(o))
  {
    assert "r"[0] != "t"[0];
    StoredStatus(o, "r");
  }

  /** The drain time of a drained version is missing exactly when asking for it failed otherwise than
      by NotFound; the planner does not check for that. */
  lemma {:induction false} DrainTimeMissingIff(server: Server, podsOf: map<BuildID, nat>, cfg: Config,
                                               ts: T.TemporalState, b: BuildID)
    requires Describes(server) && Observe(server, podsOf, cfg) == Ok(ts)
    ensures b in ts.versions && ts.versions[b].status == Drained && ts.versions[b].drainedSince.None?
            <==> (exists i :: 0 <= i < |Summaries(server)| && Summaries(server)[i].version.buildID == b
                              && T.StatusOf(Summaries(server)[i], Routing(server), server.answers.drain) == Drained)
                 && server.answers.drain(b).DrainFailed?
  {
    var c := T.Context(Routing(server), server.answers, podsOf, cfg.target, cfg.strategy.strategy);
    T.VersionsAreSummarized(Summaries(server), c, b);
    if i :| 0 <= i < |Summaries(server)| && Summaries(server)[i].version.buildID == b {
      T.EachSummaryStands(Summaries(server), c, i);
    }
  }

  /** In one plan the Deployments to delete and those to scale are different ones, even though the two
      lists are drawn up at different times. */
  lemma {:induction false} DeletedIsNotScaled(s: Status, o: Observed, another: Time, b: BuildID)
    requires StatusFor(s, o) && DrainsKnown(o) && DistinctRefs(o.view)
    ensures AllDrainsKnown(s.deprecated, o.later)
    ensures b in DeletePlan(s.deprecated, o.later, o.sizing, Found(o), s.target.buildID, o.now) ==>
              b in o.view && o.view[b].ref !in ScalePlan(s, o.later, o.sizing, another)
  {
    DeletePlanIsExact(s, o, b);
    if WantsDelete(b, o) {
      ScalePlanOf(s, o.(now := another), b);
    }
  }
}
