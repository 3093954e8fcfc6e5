/** What a whole plan does to each Deployment, from the two observed states alone: whatever order the
    deprecated versions were mapped in, the plan deletes and scales exactly these. */
module Decisions {
  import opened Api
  import opened Kubernetes
  import opened Planner
  import opened StateMapper
  import opened DriftUpdates
  import opened PodTemplates
  import opened Execution
  import T = Temporal

  /** What one reconcile has to go by: a first look at the cluster, the state of the server, and at the
      moment of planning a second look at the cluster. The first decides which versions there are, the
      second how many replicas they have. */
  datatype Observed = Observed(
    view: View,
    ts: T.TemporalState,
    later: View,
    target: BuildID,
    sizing: Sizing,
    now: Time)

  /** The same, the times cut to what the stored status shows the planner. */
  function AsStored(o: Observed): Observed {
    o.(ts := Coarse(o.ts))
  }

  predicate Found(o: Observed) {
    |o.ts.versions| > 0
  }

  /** Every drained version with a Deployment has its drain time and a replica count. */
  ghost predicate DrainsKnown(o: Observed) {
    forall b :: IsDeprecated(b, o.view, o.ts, o.target) ==> DrainKnown(MapDeprecated(b, o.view, o.ts), o.later)
  }

  ghost predicate DistinctRefs(view: View) {
    forall a, b :: a in view && b in view && view[a].ref == view[b].ref ==> a == b
  }

  ghost predicate StatusFor(s: Status, o: Observed) {
    IsStatus(s, o.view, o.ts, o.target)
  }

  ghost predicate WantsDelete(b: BuildID, o: Observed)
    requires DrainsKnown(o)
  {
    IsDeprecated(b, o.view, o.ts, o.target)
      && Deletes(MapDeprecated(b, o.view, o.ts), o.later, o.sizing, Found(o), o.target, o.now)
  }

  ghost function WantedSize(b: BuildID, o: Observed): Option<nat>
    requires DrainsKnown(o)
  {
    if b !in o.view || b !in o.later || b == "" then None
    else if b == o.ts.currentBuildID then Unless(o.later[b].replicas, o.sizing.replicas)
    else if b == o.target then if o.later[b].replicas == Some(o.sizing.replicas) then None else Some(o.sizing.replicas)
    else ScaleOf(MapDeprecated(b, o.view, o.ts), o.later, o.sizing, o.target, o.now)
  }

  ghost function Ineligible(view: View, ts: T.TemporalState): set<BuildID> {
    set b | b in view && !Eligible(b, ts)
  }

  ghost predicate WantsCreate(o: Observed, maxIneligible: int) {
    (o.target == "" || o.target !in o.view)
      && |Ineligible(o.view, o.ts) - {"", o.ts.currentBuildID, o.target}| < maxIneligible
  }

  lemma {:induction false} StatusDrainsKnown(s: Status, o: Observed)
    requires StatusFor(s, o) && DrainsKnown(o)
    ensures AllDrainsKnown(s.deprecated, o.later)
  {
  }

  /** p sizes the Deployments as the planner does for the status and the second look. */
  ghost predicate PlanFrom(p: Plan, s: Status, o: Observed, maxIneligible: int)
    requires StatusFor(s, o) && DrainsKnown(o)
  {
    StatusDrainsKnown(s, o);
    && p.deletes == DeletePlan(s.deprecated, o.later, o.sizing, Found(o), s.target.buildID, o.now)
    && p.scales == ScalePlan(s, o.later, o.sizing, o.now)
    && p.create == if s.target.deployment.None? && CountIneligible(s.deprecated) < maxIneligible then Some(o.target)
                   else None
  }

  // Deletes

  lemma {:induction false} DeletePlanSelects(list: seq<DeprecatedVersion>, view: View, sizing: Sizing, found: bool,
                                             targetID: BuildID, now: Time, b: BuildID)
    requires AllDrainsKnown(list, view)
    ensures b in DeletePlan(list, view, sizing, found, targetID, now) <==>
            exists i :: 0 <= i < |list| && list[i].buildID == b && Deletes(list[i], view, sizing, found, targetID, now)
  {
    if list != [] {
      var front := list[..|list| - 1];
      DeletePlanSelects(front, view, sizing, found, targetID, now, b);
      assert forall i :: 0 <= i < |front| ==> front[i] == list[i];
      if i :| 0 <= i < |list| && list[i].buildID == b && Deletes(list[i], view, sizing, found, targetID, now) {
        assert i < |front| ==> front[i].buildID == b;
      }
    }
  }

  lemma {:induction false} DeletePlanIsExact(s: Status, o: Observed, b: BuildID)
    requires StatusFor(s, o) && DrainsKnown(o)
    ensures AllDrainsKnown(s.deprecated, o.later)
    ensures b in DeletePlan(s.deprecated, o.later, o.sizing, Found(o), s.target.buildID, o.now) <==> WantsDelete(b, o)
  {
    StatusDrainsKnown(s, o);
    DeletePlanSelects(s.deprecated, o.later, o.sizing, Found(o), o.target, o.now, b);
    if WantsDelete(b, o) {
      var i :| 0 <= i < |s.deprecated| && s.deprecated[i] == MapDeprecated(b, o.view, o.ts);
      assert s.deprecated[i].buildID == b;
    }
  }

  // Scales

  /** Folding the deprecated versions into the scales: an entry each for those to scale, and no change
      for any other reference. */
  lemma {:induction false} ScaleDeprecatedSelects(list: seq<DeprecatedVersion>, view: View, sizing: Sizing,
                                                  targetID: BuildID, now: Time,
                                 base: map<ObjectReference, nat>, ref: ObjectReference)
    requires AllDrainsKnown(list, view)
    requires forall i, j :: 0 <= i < j < |list| ==> list[i].deployment != list[j].deployment
    ensures var scales := ScaleDeprecated(list, view, sizing, targetID, now, base);
            && (forall i :: 0 <= i < |list| && list[i].deployment == Some(ref)
                            && ScaleOf(list[i], view, sizing, targetID, now).Some? ==>
                  ref in scales && scales[ref] == ScaleOf(list[i], view, sizing, targetID, now).value)
            && ((forall i :: 0 <= i < |list| && list[i].deployment == Some(ref) ==>
                   ScaleOf(list[i], view, sizing, targetID, now).None?) ==>
                  (ref in scales <==> ref in base) && (ref in base ==> scales[ref] == base[ref]))
  {
    if list != [] {
      var front := list[..|list| - 1];
      assert forall i :: 0 <= i < |front| ==> front[i] == list[i];
      ScaleDeprecatedSelects(front, view, sizing, targetID, now, base, ref);
    }
  }

  lemma {:induction false} DeprecatedRefs(s: Status, o: Observed)
    requires StatusFor(s, o) && DistinctRefs(o.view)
    ensures forall i :: 0 <= i < |s.deprecated| ==>
              s.deprecated[i].buildID in o.view
                && s.deprecated[i].deployment == Some(o.view[s.deprecated[i].buildID].ref)
    ensures forall i, j :: 0 <= i < j < |s.deprecated| ==> s.deprecated[i].deployment != s.deprecated[j].deployment
  {
  }

  /** The entries made before the deprecated versions are looked at. */
  lemma {:induction false} BaseScaleOf(s: Status, o: Observed, b: BuildID)
    requires StatusFor(s, o) && DistinctRefs(o.view) && b in o.view
    ensures var base := ScaleTarget(s, o.later, o.sizing, ScaleCurrent(s, o.later, o.sizing));
            var wanted := if b == "" || b !in o.later then None
                          else if b == o.ts.currentBuildID then Unless(o.later[b].replicas, o.sizing.replicas)
                          else if b == o.target && o.later[b].replicas != Some(o.sizing.replicas)
                            then Some(o.sizing.replicas)
                          else None;
            if wanted.Some? then o.view[b].ref in base
              && base[o.view[b].ref] == wanted.value else o.view[b].ref !in base
  {
  }

  lemma {:induction false} ScalePlanOf(s: Status, o: Observed, b: BuildID)
    requires StatusFor(s, o) && DrainsKnown(o) && DistinctRefs(o.view) && b in o.view
    ensures AllDrainsKnown(s.deprecated, o.later)
    ensures var scales := ScalePlan(s, o.later, o.sizing, o.now);
            if WantedSize(b, o).Some? then o.view[b].ref in scales && scales[o.view[b].ref] == WantedSize(b, o).value
            else o.view[b].ref !in scales
  {
    StatusDrainsKnown(s, o);
    DeprecatedRefs(s, o);
    BaseScaleOf(s, o, b);
    var ref := o.view[b].ref;
    var base := ScaleTarget(s, o.later, o.sizing, ScaleCurrent(s, o.later, o.sizing));
    ScaleDeprecatedSelects(s.deprecated, o.later, o.sizing, o.target, o.now, base, ref);
    if IsDeprecated(b, o.view, o.ts, o.target) {
      var i :| 0 <= i < |s.deprecated| && s.deprecated[i] == MapDeprecated(b, o.view, o.ts);
      forall j | 0 <= j < |s.deprecated| && s.deprecated[j].deployment == Some(ref)
        ensures s.deprecated[j] == MapDeprecated(b, o.view, o.ts)
      {
      }
    } else {
      forall j | 0 <= j < |s.deprecated|
        ensures s.deprecated[j].deployment != Some(ref)
      {
      }
    }
  }

  lemma {:induction false} ScaleDeprecatedKeys(list: seq<DeprecatedVersion>, view: View, sizing: Sizing,
                                               targetID: BuildID, now: Time,
                              base: map<ObjectReference, nat>, ref: ObjectReference)
    requires AllDrainsKnown(list, view)
    requires ref in ScaleDeprecated(list, view, sizing, targetID, now, base)
    ensures ref in base || exists i :: 0 <= i < |list| && list[i].deployment == Some(ref)
  {
    if list != [] {
      var front := list[..|list| - 1];
      var last := list[|list| - 1];
      if last.deployment != Some(ref) {
        ScaleDeprecatedKeys(front, view, sizing, targetID, now, base, ref);
        if ref !in base {
          var i :| 0 <= i < |front| && front[i].deployment == Some(ref);
          assert list[i].deployment == Some(ref);
        }
      }
    }
  }

  /** Only observed Deployments are scaled. */
  lemma {:induction false} ScalePlanKeys(s: Status, o: Observed, ref: ObjectReference)
    requires StatusFor(s, o) && AllDrainsKnown(s.deprecated, o.later)
    requires ref in ScalePlan(s, o.later, o.sizing, o.now)
    ensures exists b :: b in o.view && o.view[b].ref == ref
  {
    var base := ScaleTarget(s, o.later, o.sizing, ScaleCurrent(s, o.later, o.sizing));
    ScaleDeprecatedKeys(s.deprecated, o.later, o.sizing, o.target, o.now, base, ref);
    if ref !in base {
      var i :| 0 <= i < |s.deprecated| && s.deprecated[i].deployment == Some(ref);
      assert o.view[s.deprecated[i].buildID].ref == ref;
    }
  }

  // Creates

  lemma {:induction false} CountIsCardinality(list: seq<DeprecatedVersion>, ids: set<BuildID>)
    requires forall i, j :: 0 <= i < j < |list| ==> list[i].buildID != list[j].buildID
    requires forall b :: b in ids <==>
               exists i :: 0 <= i < |list| && list[i].buildID == b && !list[i].eligibleForDeletion
    ensures CountIneligible(list) == |ids|
  {
    if list == [] {
      assert ids == {};
    } else {
      var front, last := list[..|list| - 1], list[|list| - 1];
      var others := ids - {last.buildID};
      forall b
        ensures b in others <==> exists i :: 0 <= i < |front| && front[i].buildID == b && !front[i].eligibleForDeletion
      {
        if b in others {
          var i :| 0 <= i < |list| && list[i].buildID == b && !list[i].eligibleForDeletion;
          assert front[i].buildID == b;
        }
        if i :| 0 <= i < |front| && front[i].buildID == b && !front[i].eligibleForDeletion {
          assert list[i].buildID == b && !list[i].eligibleForDeletion;
        }
      }
      CountIsCardinality(front, others);
      if last.eligibleForDeletion {
        assert last.buildID !in ids;
      } else {
        assert list[|list| - 1].buildID == last.buildID;
        assert last.buildID in ids;
      }
    }
  }

  lemma {:induction false} CountOf(s: Status, o: Observed)
    requires StatusFor(s, o)
    ensures CountIneligible(s.deprecated) == |Ineligible(o.view, o.ts) - {"", o.ts.currentBuildID, o.target}|
  {
    var ids := Ineligible(o.view, o.ts) - {"", o.ts.currentBuildID, o.target};
    forall b
      ensures b in ids <==>
              exists i :: 0 <= i < |s.deprecated| && s.deprecated[i].buildID == b
                          && !s.deprecated[i].eligibleForDeletion
    {
      if b in ids {
        assert MapDeprecated(b, o.view, o.ts) in s.deprecated;
        var i :| 0 <= i < |s.deprecated| && s.deprecated[i] == MapDeprecated(b, o.view, o.ts);
        assert s.deprecated[i].buildID == b;
      }
    }
    CountIsCardinality(s.deprecated, ids);
  }

  /** shouldCreateDeployment, on what was observed. */
  lemma {:induction false} CreateIsExact(s: Status, o: Observed, maxIneligible: int)
    requires StatusFor(s, o)
    ensures s.target.deployment.None? && CountIneligible(s.deprecated) < maxIneligible
            <==> WantsCreate(o, maxIneligible)
  {
    CountOf(s, o);
  }

  lemma {:induction false} ScaleAgrees(s: Status, s': Status, o: Observed, ref: ObjectReference)
    requires StatusFor(s, o) && StatusFor(s', o) && DrainsKnown(o) && DistinctRefs(o.view)
    ensures AllDrainsKnown(s.deprecated, o.later) && AllDrainsKnown(s'.deprecated, o.later)
    ensures var scales, scales' := ScalePlan(s, o.later, o.sizing, o.now), ScalePlan(s', o.later, o.sizing, o.now);
            (ref in scales <==> ref in scales') && (ref in scales ==> scales[ref] == scales'[ref])
  {
    StatusDrainsKnown(s, o);
    StatusDrainsKnown(s', o);
    if b :| b in o.view && o.view[b].ref == ref {
      ScalePlanOf(s, o, b);
      ScalePlanOf(s', o, b);
    } else {
      if ref in ScalePlan(s, o.later, o.sizing, o.now) {
        ScalePlanKeys(s, o, ref);
      }
      if ref in ScalePlan(s', o.later, o.sizing, o.now) {
        ScalePlanKeys(s', o, ref);
      }
    }
  }

  lemma {:induction false} ScalePlansAgree(s: Status, s': Status, o: Observed)
    requires StatusFor(s, o) && StatusFor(s', o) && DrainsKnown(o) && DistinctRefs(o.view)
    ensures AllDrainsKnown(s.deprecated, o.later) && AllDrainsKnown(s'.deprecated, o.later)
    ensures ScalePlan(s, o.later, o.sizing, o.now) == ScalePlan(s', o.later, o.sizing, o.now)
  {
    StatusDrainsKnown(s, o);
    StatusDrainsKnown(s', o);
    var scales, scales' := ScalePlan(s, o.later, o.sizing, o.now), ScalePlan(s', o.later, o.sizing, o.now);
    forall ref
      ensures ref in scales <==> ref in scales'
      ensures ref in scales ==> scales[ref] == scales'[ref]
    {
      ScaleAgrees(s, s', o, ref);
    }
  }

  lemma {:induction false} DeletePlansAgree(s: Status, s': Status, o: Observed, b: BuildID)
    requires StatusFor(s, o) && StatusFor(s', o) && DrainsKnown(o)
    ensures AllDrainsKnown(s.deprecated, o.later) && AllDrainsKnown(s'.deprecated, o.later)
    ensures b in DeletePlan(s.deprecated, o.later, o.sizing, Found(o), s.target.buildID, o.now)
            <==> b in DeletePlan(s'.deprecated, o.later, o.sizing, Found(o), s'.target.buildID, o.now)
  {
    DeletePlanIsExact(s, o, b);
    DeletePlanIsExact(s', o, b);
  }

  lemma {:induction false} OtherPlansAgree(s: Status, s': Status, o: Observed, strategy: RolloutStrategy,
                                           deploymentName: string)
    requires StatusFor(s, o) && StatusFor(s', o) && TargetEntryPresent(s, o.ts)
    ensures TargetEntryPresent(s', o.ts)
    ensures CountIneligible(s.deprecated) == CountIneligible(s'.deprecated)
    ensures TestPlan(s, strategy, deploymentName) == TestPlan(s', strategy, deploymentName)
    ensures VersionDiff(s, o.ts, strategy, o.now) == VersionDiff(s', o.ts, strategy, o.now)
  {
    CountOf(s, o);
    CountOf(s', o);
    RoutingAgrees(s, s', o, strategy);
  }

  lemma {:induction false} RoutingAgrees(s: Status, s': Status, o: Observed, strategy: RolloutStrategy)
    requires s.target == s'.target && s.current == s'.current && s.conflictToken == s'.conflictToken
    requires TargetEntryPresent(s, o.ts)
    ensures TargetEntryPresent(s', o.ts)
            && VersionDiff(s, o.ts, strategy, o.now) == VersionDiff(s', o.ts, strategy, o.now)
  {
  }

  lemma {:induction false} ListedBuilds(s: Status, o: Observed)
    requires StatusFor(s, o)
    ensures (set v | v in s.deprecated :: v.buildID) == set b | b in o.view && IsDeprecated(b, o.view, o.ts, o.target)
  {
    forall b | IsDeprecated(b, o.view, o.ts, o.target)
      ensures b in set v | v in s.deprecated :: v.buildID
    {
      assert MapDeprecated(b, o.view, o.ts) in s.deprecated;
    }
  }

  lemma {:induction false} UpdatesAgree(s: Status, s': Status, o: Observed, spec: DeploymentSpec, c: ConnectionSpec,
                                        h: Hashes)
    requires StatusFor(s, o) && StatusFor(s', o)
    ensures DesiredBy(s, spec, c, h) == DesiredBy(s', spec, c, h)
  {
    ListedBuilds(s, o);
    ListedBuilds(s', o);
  }

  /** Two maps of the same states, whatever Go's map order did, lead to the same plan. */
  lemma {:induction false} PlansIgnoreMapOrder(s: Status, s': Status, o: Observed, strategy: RolloutStrategy,
                                               deploymentName: string,
                               spec: DeploymentSpec, c: ConnectionSpec, h: Hashes)
    requires StatusFor(s, o) && StatusFor(s', o) && DrainsKnown(o) && DistinctRefs(o.view)
    requires TargetEntryPresent(s, o.ts)
    ensures AllDrainsKnown(s.deprecated, o.later) && AllDrainsKnown(s'.deprecated, o.later)
            && TargetEntryPresent(s', o.ts)
    ensures forall b :: b in DeletePlan(s.deprecated, o.later, o.sizing, Found(o), s.target.buildID, o.now)
                        <==> b in DeletePlan(s'.deprecated, o.later, o.sizing, Found(o), s'.target.buildID, o.now)
    ensures ScalePlan(s, o.later, o.sizing, o.now) == ScalePlan(s', o.later, o.sizing, o.now)
    ensures CountIneligible(s.deprecated) == CountIneligible(s'.deprecated)
    ensures TestPlan(s, strategy, deploymentName) == TestPlan(s', strategy, deploymentName)
    ensures VersionDiff(s, o.ts, strategy, o.now) == VersionDiff(s', o.ts, strategy, o.now)
    ensures DesiredBy(s, spec, c, h) == DesiredBy(s', spec, c, h)
  {
    UpdatesAgree(s, s', o, spec, c, h);
    ScalePlansAgree(s, s', o);
    OtherPlansAgree(s, s', o, strategy, deploymentName);
    forall b
      ensures b in DeletePlan(s.deprecated, o.later, o.sizing, Found(o), s.target.buildID, o.now)
              <==> b in DeletePlan(s'.deprecated, o.later, o.sizing, Found(o), s'.target.buildID, o.now)
    {
      DeletePlansAgree(s, s', o, b);
    }
  }
}
