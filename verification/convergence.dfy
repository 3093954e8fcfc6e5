/** Bounded convergence: with everything but the Deployments standing still, repeating observe, plan and
    execute comes to rest, unless the API server refuses the target's Deployment for its name. One
    Deployment per build ID, as the controller makes them: of two that carry the same label only the
    newest is in the view, and deleting it would uncover the other. */
module Convergence {
  import opened Api
  import opened BuildIds
  import opened Kubernetes
  import opened Planner
  import opened StateMapper
  import opened Decisions
  import opened Execution
  import T = Temporal

  /** The resource's name, the names that Deployments outside the view have in its namespace, and the cap. */
  datatype Cluster = Cluster(name: string, foreign: set<string>, maxIneligible: int)

  /** Nothing happens to the cluster between the two looks. */
  ghost predicate Calm(o: Observed) {
    o.later == o.view && DrainsKnown(o)
  }

  function With(o: Observed, view: View): Observed {
    o.(view := view, later := view)
  }

  // Execution

  /** The API server wants lower-case names, and every name once. */
  ghost predicate IsRefused(name: string, view: View, c: Cluster) {
    !AdmissibleName(name) || name in c.foreign || exists b :: b in view && view[b].ref.name == name
  }

  ghost function Resized(view: View, ref: ObjectReference, size: nat): View {
    map b | b in view :: if view[b].ref == ref then view[b].(replicas := Some(size)) else view[b]
  }

  /** What a call makes of the view. A new Deployment is not yet available. */
  ghost function Effect(a: Action, view: View, c: Cluster, size: nat, uid: nat): Option<View> {
    match a
    case Create(b) =>
      var name := ComputeVersionedDeploymentName(c.name, b);
      if IsRefused(name, view, c) then None
        else Some(view[b := DeploymentView(ObjectReference(name, uid), None, Some(size))])
    case Delete(b) => Some(view - {b})
    case Scale(ref, n) => Some(Resized(view, ref, n))
    case _ => Some(view)
  }

  /** A refused call drops the rest of the plan. */
  ghost function Executed(actions: seq<Action>, view: View, c: Cluster, size: nat, uid: nat): View
    decreases |actions|
  {
    if actions == [] then view else
    match Effect(actions[0], view, c, size, uid)
    case None => view
    case Some(view') => Executed(actions[1..], view', c, size, uid)
  }

  ghost predicate ScalesOnce(actions: seq<Action>) {
    forall i, j :: 0 <= i < j < |actions| && actions[i].Scale? && actions[j].Scale? ==> actions[i].ref != actions[j].ref
  }

  ghost predicate Scales(actions: seq<Action>, ref: ObjectReference) {
    exists i :: 0 <= i < |actions| && actions[i].Scale? && actions[i].ref == ref
  }

  /** after holds what is left of b: nothing if it is deleted, else b at the size it is scaled to, if any. */
  ghost predicate Outcome(b: BuildID, actions: seq<Action>, view: View, after: View) {
    && (b in after <==> b in view && Delete(b) !in actions)
    && (b in after ==>
          && after[b] == view[b].(replicas := after[b].replicas)
          && (forall i :: 0 <= i < |actions| && actions[i].Scale? && actions[i].ref == view[b].ref
               ==> after[b].replicas == Some(actions[i].size))
          && (!Scales(actions, view[b].ref) ==> after[b].replicas == view[b].replicas))
  }

  lemma {:induction false} ExecutedOutcome(actions: seq<Action>, view: View, c: Cluster, size: nat, uid: nat,
                                           b: BuildID)
    requires ScalesOnce(actions) && forall i :: 0 <= i < |actions| ==> !actions[i].Create?
    ensures Outcome(b, actions, view, Executed(actions, view, c, size, uid))
    decreases |actions|
  {
    if actions != [] {
      var first, rest := actions[0], actions[1..];
      var view' := Effect(first, view, c, size, uid).value;
      var after := Executed(actions, view, c, size, uid);
      ExecutedOutcome(rest, view', c, size, uid, b);
      assert actions == [first] + rest;
      if b in after {
        forall i | 0 <= i < |actions| && actions[i].Scale? && actions[i].ref == view[b].ref
          ensures after[b].replicas == Some(actions[i].size)
        {
          if i > 0 {
            assert rest[i - 1] == actions[i];
          } else {
            assert !Scales(rest, view[b].ref);
          }
        }
        if !Scales(actions, view[b].ref) {
          assert forall i :: 0 <= i < |rest| ==> rest[i] == actions[i + 1];
          assert !Scales(rest, view[b].ref);
        }
      }
    }
  }

  // Passes

  ghost predicate NameRefused(o: Observed, c: Cluster) {
    IsRefused(ComputeVersionedDeploymentName(c.name, o.target), o.view, c)
  }

  /** The plan begins with a create that is refused. */
  ghost predicate Stuck(o: Observed, c: Cluster) {
    WantsCreate(o, c.maxIneligible) && NameRefused(o, c)
  }

  ghost function Created(o: Observed, c: Cluster, uid: nat): View {
    if WantsCreate(o, c.maxIneligible) then
      map[o.target := DeploymentView(ObjectReference(ComputeVersionedDeploymentName(c.name, o.target), uid), None,
          Some(o.sizing.replicas))]
    else map[]
  }

  /** One pass, from the decisions per build ID. */
  ghost function Pass(o: Observed, c: Cluster, uid: nat): Observed
    requires Calm(o)
  {
    if Stuck(o, c) then o else
    With(o, (map b | b in o.view && !WantsDelete(b, o) ::
               if WantedSize(b, o).Some? then o.view[b].(replicas := WantedSize(b, o)) else o.view[b])
            + Created(o, c, uid))
  }

  /** The calls after the create, if there is one. */
  ghost function Later(p: Plan, order: seq<ObjectReference>): seq<Action>
    requires ListsKeys(order, p.scales)
  {
    ActionsOf(p.(create := None), order)
  }

  lemma {:induction false} LaterCalls(p: Plan, order: seq<ObjectReference>)
    requires ListsKeys(order, p.scales)
    ensures ActionsOf(p, order) == (if p.create.Some? then [Create(p.create.value)] else []) + Later(p, order)
  {
  }

  lemma {:induction false} LaterCreatesNothing(p: Plan, order: seq<ObjectReference>)
    requires ListsKeys(order, p.scales)
    ensures forall i :: 0 <= i < |Later(p, order)| ==> !Later(p, order)[i].Create?
  {
    var later := Later(p, order);
    forall i | 0 <= i < |later|
      ensures !later[i].Create?
    {
      assert later[i] in later;
      ClusterActionsAreThePlans(p.(create := None), order, later[i]);
    }
  }

  lemma {:induction false} LaterScalesOnce(p: Plan, order: seq<ObjectReference>)
    requires ListsKeys(order, p.scales)
    ensures ScalesOnce(Later(p, order))
  {
    var later := Later(p, order);
    forall i, j | 0 <= i < j < |later| && later[i].Scale? && later[j].Scale?
      ensures later[i].ref != later[j].ref
    {
      LaterScaleAt(p, order, i);
      LaterScaleAt(p, order, j);
    }
  }

  lemma {:induction false} LaterScaleAt(p: Plan, order: seq<ObjectReference>, i: nat)
    requires ListsKeys(order, p.scales) && i < |Later(p, order)| && Later(p, order)[i].Scale?
    ensures |p.deletes| <= i < |p.deletes| + |order| && Later(p, order)[i].ref == order[i - |p.deletes|]
  {
    KindsOfActions(p.(create := None), order, i);
  }

  lemma {:induction false} LaterDeletes(p: Plan, order: seq<ObjectReference>, b: BuildID)
    requires ListsKeys(order, p.scales)
    ensures Delete(b) in Later(p, order) <==> b in p.deletes
  {
    var later := Later(p, order);
    if k :| 0 <= k < |p.deletes| && p.deletes[k] == b {
      assert later[k] == Delete(b);
    }
    if Delete(b) in later {
      ClusterActionsAreThePlans(p.(create := None), order, Delete(b));
    }
  }

  lemma {:induction false} LaterScales(p: Plan, order: seq<ObjectReference>, ref: ObjectReference)
    requires ListsKeys(order, p.scales)
    ensures ref in p.scales ==> Scale(ref, p.scales[ref]) in Later(p, order)
    ensures Scales(Later(p, order), ref) ==> ref in p.scales
  {
    var later := Later(p, order);
    if ref in p.scales {
      var k :| 0 <= k < |order| && order[k] == ref;
      assert later[|p.deletes| + k] == Scale(ref, p.scales[ref]);
    }
    if i :| 0 <= i < |later| && later[i].Scale? && later[i].ref == ref {
      assert later[i] in later;
      ClusterActionsAreThePlans(p.(create := None), order, later[i]);
    }
  }

  /** What the calls after the create leave of a Deployment seen is what the decisions say. */
  lemma {:induction false} LaterDecides(p: Plan, order: seq<ObjectReference>, s: Status, o: Observed,
                                        maxIneligible: int, view: View, after: View, b: BuildID)
    requires StatusFor(s, o) && Calm(o) && DistinctRefs(o.view) && b in o.view
    requires PlanFrom(p, s, o, maxIneligible) && ListsKeys(order, p.scales)
    requires b in view && view[b] == o.view[b] && Outcome(b, Later(p, order), view, after)
    ensures b in after <==> !WantsDelete(b, o)
    ensures b in after ==> after[b] == if WantedSize(b, o).Some? then o.view[b].(replicas := WantedSize(b, o))
            else o.view[b]
  {
    LaterDeletes(p, order, b);
    LaterScales(p, order, o.view[b].ref);
    DeletePlanIsExact(s, o, b);
    ScalePlanOf(s, o, b);
    if b in after && WantedSize(b, o).Some? {
      var i :| 0 <= i < |Later(p, order)| && Later(p, order)[i] == Scale(o.view[b].ref, WantedSize(b, o).value);
      assert after[b].replicas == Some(Later(p, order)[i].size);
    }
  }

  /** A Deployment just created is neither deleted nor scaled by its own plan. */
  lemma {:induction false} LaterSparesTheNew(p: Plan, order: seq<ObjectReference>, s: Status, o: Observed, c: Cluster,
                                             view: View, after: View)
    requires StatusFor(s, o) && Calm(o) && DistinctRefs(o.view) && !NameRefused(o, c)
    requires PlanFrom(p, s, o, c.maxIneligible) && ListsKeys(order, p.scales)
    requires o.target !in o.view && o.target in view
    requires view[o.target].ref.name == ComputeVersionedDeploymentName(c.name, o.target)
    requires Outcome(o.target, Later(p, order), view, after)
    ensures o.target in after && after[o.target] == view[o.target]
  {
    LaterDeletes(p, order, o.target);
    LaterScales(p, order, view[o.target].ref);
    DeletePlanIsExact(s, o, o.target);
    if view[o.target].ref in p.scales {
      ScalePlanKeys(s, o, view[o.target].ref);
    }
  }

  /** The view after the create. */
  ghost function Base(o: Observed, c: Cluster, uid: nat): View {
    o.view + Created(o, c, uid)
  }

  lemma {:induction false} ExecutedFirst(a: Action, rest: seq<Action>, view: View, c: Cluster, size: nat, uid: nat)
    ensures var effect := Effect(a, view, c, size, uid);
            Executed([a] + rest, view, c, size, uid) == if effect.None? then view
              else Executed(rest, effect.value, c, size, uid)
  {
    assert ([a] + rest)[1..] == rest;
  }

  lemma {:induction false} EffectOfCreate(o: Observed, c: Cluster, uid: nat)
    requires WantsCreate(o, c.maxIneligible)
    ensures Effect(Create(o.target), o.view, c, o.sizing.replicas, uid) == if NameRefused(o, c) then None
            else Some(Base(o, c, uid))
  {
    assert Base(o, c, uid) == o.view[o.target := Created(o, c, uid)[o.target]];
  }

  /** The create is refused and drops the plan, or the rest follows it. */
  lemma {:induction false} CreateThenLater(later: seq<Action>, o: Observed, c: Cluster, uid: nat)
    ensures Executed((if WantsCreate(o, c.maxIneligible) then [Create(o.target)] else []) + later, o.view, c,
              o.sizing.replicas, uid)
            == if Stuck(o, c) then o.view else Executed(later, Base(o, c, uid), c, o.sizing.replicas, uid)
  {
    if WantsCreate(o, c.maxIneligible) {
      ExecutedFirst(Create(o.target), later, o.view, c, o.sizing.replicas, uid);
      EffectOfCreate(o, c, uid);
    } else {
      assert Base(o, c, uid) == o.view && [] + later == later;
    }
  }

  ghost predicate Agree(b: BuildID, v: View, v': View) {
    (b in v <==> b in v') && (b in v ==> v[b] == v'[b])
  }

  lemma {:induction false} LaterMakesThePass(p: Plan, order: seq<ObjectReference>, s: Status, o: Observed, c: Cluster,
                                             uid: nat, b: BuildID)
    requires StatusFor(s, o) && Calm(o) && DistinctRefs(o.view) && o.target != "" && !Stuck(o, c)
    requires PlanFrom(p, s, o, c.maxIneligible) && ListsKeys(order, p.scales)
    ensures Agree(b, Executed(Later(p, order), Base(o, c, uid), c, o.sizing.replicas, uid), Pass(o, c, uid).view)
  {
    var view := Base(o, c, uid);
    var after := Executed(Later(p, order), view, c, o.sizing.replicas, uid);
    LaterCreatesNothing(p, order);
    LaterScalesOnce(p, order);
    ExecutedOutcome(Later(p, order), view, c, o.sizing.replicas, uid, b);
    if b in o.view {
      LaterDecides(p, order, s, o, c.maxIneligible, view, after, b);
    } else if b in view {
      LaterSparesTheNew(p, order, s, o, c, view, after);
    }
  }

  /** A pass is what executing the planner's plan does, for any status the states map to. */
  lemma {:induction false} PassExecutesThePlan(p: Plan, order: seq<ObjectReference>, s: Status, o: Observed,
                                               c: Cluster, uid: nat)
    requires StatusFor(s, o) && Calm(o) && DistinctRefs(o.view) && o.target != ""
    requires PlanFrom(p, s, o, c.maxIneligible) && ListsKeys(order, p.scales)
    ensures Executed(ActionsOf(p, order), o.view, c, o.sizing.replicas, uid) == Pass(o, c, uid).view
  {
    CreateIsExact(s, o, c.maxIneligible);
    LaterCalls(p, order);
    CreateThenLater(Later(p, order), o, c, uid);
    if !Stuck(o, c) {
      var after, made := Executed(Later(p, order), Base(o, c, uid), c, o.sizing.replicas, uid), Pass(o, c, uid).view;
      forall b
        ensures Agree(b, after, made)
      {
        LaterMakesThePass(p, order, s, o, c, uid, b);
      }
      AgreeingIsEqual(after, made);
    }
  }

  lemma {:induction false} AgreeingIsEqual(v: View, v': View)
    requires forall b :: Agree(b, v, v')
    ensures v == v'
  {
    forall b
      ensures b in v <==> b in v'
      ensures b in v ==> v[b] == v'[b]
    {
      assert Agree(b, v, v');
    }
  }

  /** References stay distinct, so the next pass is again what a plan does. */
  lemma {:induction false} PassKeepsRefsDistinct(o: Observed, c: Cluster, uid: nat)
    requires Calm(o) && DistinctRefs(o.view)
    ensures DistinctRefs(Pass(o, c, uid).view)
  {
    if !Stuck(o, c) {
      var view' := Pass(o, c, uid).view;
      forall a, b | a in view' && b in view' && view'[a].ref == view'[b].ref
        ensures a == b
      {
        assert a !in Created(o, c, uid) ==> a in o.view && view'[a].ref == o.view[a].ref;
        assert b !in Created(o, c, uid) ==> b in o.view && view'[b].ref == o.view[b].ref;
      }
    }
  }

  ghost predicate Settled(o: Observed)
    requires Calm(o)
  {
    forall b :: b in o.view ==> WantedSize(b, o).None?
  }

  ghost predicate NothingToDelete(o: Observed)
    requires Calm(o)
  {
    forall b :: b in o.view ==> !WantsDelete(b, o)
  }

  /** The plan has no delete, no scale and no create. */
  ghost predicate Quiet(o: Observed, maxIneligible: int)
    requires Calm(o)
  {
    Settled(o) && NothingToDelete(o) && !WantsCreate(o, maxIneligible)
  }

  lemma {:induction false} PassKeepsCalm(o: Observed, c: Cluster, uid: nat)
    requires Calm(o)
    ensures Calm(Pass(o, c, uid))
  {
    var o' := Pass(o, c, uid);
    forall b | IsDeprecated(b, o'.view, o'.ts, o'.target)
      ensures DrainKnown(MapDeprecated(b, o'.view, o'.ts), o'.view)
    {
      assert IsDeprecated(b, o.view, o.ts, o.target);
      assert DrainKnown(MapDeprecated(b, o.view, o.ts), o.view);
    }
  }

  /** Whatever survives a pass has the size it should have. */
  lemma {:induction false} PassSettles(o: Observed, c: Cluster, uid: nat)
    requires Calm(o) && o.target != "" && !Stuck(o, c)
    ensures Calm(Pass(o, c, uid)) && Settled(Pass(o, c, uid))
  {
    PassKeepsCalm(o, c, uid);
    var o' := Pass(o, c, uid);
    forall b | b in o'.view
      ensures WantedSize(b, o').None?
    {
      if b !in Created(o, c, uid) {
        SurvivorSettles(o, o', b);
      }
    }
  }

  lemma {:induction false} SurvivorSettles(o: Observed, o': Observed, b: BuildID)
    requires Calm(o) && Calm(o') && o' == With(o, o'.view) && b in o.view && b in o'.view
    requires o'.view[b] == if WantedSize(b, o).Some? then o.view[b].(replicas := WantedSize(b, o)) else o.view[b]
    ensures WantedSize(b, o').None?
  {
  }

  lemma {:induction false} SettledPassOnlyDeletes(o: Observed, c: Cluster, uid: nat)
    requires Calm(o) && o.target != "" && Settled(o) && !Stuck(o, c)
    ensures Calm(Pass(o, c, uid)) && NothingToDelete(Pass(o, c, uid))
  {
    PassKeepsCalm(o, c, uid);
    var o' := Pass(o, c, uid);
    forall b | b in o'.view
      ensures !WantsDelete(b, o')
    {
      if IsDeprecated(b, o'.view, o'.ts, o'.target) {
        assert b in o.view && !WantsDelete(b, o) && o'.view[b] == o.view[b];
      }
    }
  }

  lemma {:induction false} LastPassOnlyCreates(o: Observed, c: Cluster, uid: nat)
    requires Calm(o) && o.target != "" && Settled(o) && NothingToDelete(o) && !Stuck(o, c)
    ensures Calm(Pass(o, c, uid)) && Quiet(Pass(o, c, uid), c.maxIneligible)
  {
    var o' := Pass(o, c, uid);
    PassSettles(o, c, uid);
    SettledPassOnlyDeletes(o, c, uid);
    if WantsCreate(o, c.maxIneligible) {
      assert o'.target in o'.view;
    } else {
      IdlePass(o, c, uid);
    }
  }

  lemma {:induction false} IdlePass(o: Observed, c: Cluster, uid: nat)
    requires Calm(o) && Quiet(o, c.maxIneligible)
    ensures Pass(o, c, uid) == o
  {
    assert Pass(o, c, uid).view == o.view;
  }

  /** A pass changes nothing exactly if its plan is empty or begins with a refused create. */
  lemma {:induction false} RestsIffQuietOrStuck(o: Observed, c: Cluster, uid: nat)
    requires Calm(o) && o.target != ""
    ensures Pass(o, c, uid) == o <==> Quiet(o, c.maxIneligible) || Stuck(o, c)
    ensures !(Quiet(o, c.maxIneligible) && Stuck(o, c))
  {
    var o' := Pass(o, c, uid);
    if Quiet(o, c.maxIneligible) {
      assert o'.view == o.view;
    } else if !Stuck(o, c) && o' == o {
      PassSettles(o, c, uid);
      SettledPassOnlyDeletes(o, c, uid);
      LastPassOnlyCreates(o, c, uid);
    }
  }

  /** One pass after the other; uids are those new Deployments would get. */
  ghost function Passes(o: Observed, c: Cluster, uids: seq<nat>): (r: Observed)
    requires Calm(o)
    ensures Calm(r)
    decreases |uids|
  {
    if uids == [] then o else
    PassKeepsCalm(o, c, uids[0]);
    Passes(Pass(o, c, uids[0]), c, uids[1..])
  }

  lemma {:induction false} RestsForEver(o: Observed, c: Cluster, uids: seq<nat>)
    requires Calm(o) && o.target != "" && (Quiet(o, c.maxIneligible) || Stuck(o, c))
    ensures Passes(o, c, uids) == o
    decreases |uids|
  {
    if uids != [] {
      RestsIffQuietOrStuck(o, c, uids[0]);
      RestsForEver(o, c, uids[1..]);
    }
  }

  // Who converges

  ghost function Without(o: Observed, gone: set<BuildID>): Observed {
    With(o, o.view - gone)
  }

  ghost function Deleted(o: Observed): set<BuildID>
    requires Calm(o)
  {
    set b | b in o.view && WantsDelete(b, o)
  }

  /** Those deleted at once and those deleted as soon as they have been scaled down. */
  ghost function Doomed(o: Observed): set<BuildID>
    requires Calm(o)
  {
    Deleted(o) + set b | b in o.view && IsDeprecated(b, o.view, o.ts, o.target) && StatusIn(b, o.ts) == Drained
                         && o.now - o.ts.versions[b].drainedSince.value > o.sizing.deleteDelay + o.sizing.scaledownDelay
                         && o.now - o.ts.versions[b].drainedSince.value > o.sizing.scaledownDelay
  }

  /** When the cap first leaves room for the target's Deployment, at once, after the first deletes or
      after the second, its name is refused. */
  ghost predicate Blocked(o: Observed, c: Cluster)
    requires Calm(o)
  {
    || Stuck(o, c)
    || (&& !WantsCreate(o, c.maxIneligible)
        && (|| Stuck(Without(o, Deleted(o)), c)
            || (!WantsCreate(Without(o, Deleted(o)), c.maxIneligible) && Stuck(Without(o, Doomed(o)), c))))
  }

  ghost predicate SameDeployments(o: Observed, o': Observed) {
    && o' == With(o, o'.view) && o'.view.Keys == o.view.Keys
    && forall b :: b in o.view ==> o'.view[b].ref == o.view[b].ref
  }

  lemma {:induction false} CreateDependsOnDeployments(o: Observed, o': Observed, c: Cluster)
    requires SameDeployments(o, o')
    ensures WantsCreate(o, c.maxIneligible) <==> WantsCreate(o', c.maxIneligible)
    ensures NameRefused(o, c) <==> NameRefused(o', c)
  {
    assert Ineligible(o.view, o.ts) == Ineligible(o'.view, o'.ts);
    if b :| b in o.view && o.view[b].ref.name == ComputeVersionedDeploymentName(c.name, o.target) {
      assert o'.view[b].ref.name == o.view[b].ref.name;
    }
  }

  lemma {:induction false} PassDeletes(o: Observed, c: Cluster, uid: nat)
    requires Calm(o) && !WantsCreate(o, c.maxIneligible)
    ensures SameDeployments(Without(o, Deleted(o)), Pass(o, c, uid))
  {
  }

  lemma {:induction false} TwoPassesDelete(o: Observed, c: Cluster, u: nat, v: nat)
    requires Calm(o) && o.target != "" && !WantsCreate(o, c.maxIneligible)
    requires var o1 := Pass(o, c, u); Calm(o1) && !WantsCreate(o1, c.maxIneligible)
    ensures SameDeployments(Without(o, Doomed(o)), Pass(Pass(o, c, u), c, v))
  {
    var o1 := Pass(o, c, u);
    PassDeletes(o, c, u);
    PassDeletes(o1, c, v);
    forall b | b in o.view
      ensures b in Doomed(o) <==> b in Deleted(o) || b in Deleted(o1)
    {
      if b !in Deleted(o) {
        SurvivorIsDoomedIff(o, o1, b);
      }
    }
  }

  lemma {:induction false} SurvivorIsDoomedIff(o: Observed, o1: Observed, b: BuildID)
    requires Calm(o) && Calm(o1) && o1 == With(o, o1.view) && b in o.view && b in o1.view
    requires o1.view[b] == if WantedSize(b, o).Some? then o.view[b].(replicas := WantedSize(b, o)) else o.view[b]
    requires !WantsDelete(b, o)
    ensures b in Doomed(o) <==> WantsDelete(b, o1)
  {
    if IsDeprecated(b, o.view, o.ts, o.target) {
      assert DrainKnown(MapDeprecated(b, o.view, o.ts), o.view);
    }
  }

  lemma {:induction false} UnstuckConverges(o: Observed, c: Cluster, u: nat, v: nat, x: nat)
    requires Calm(o) && o.target != "" && !Stuck(o, c)
    requires var o1 := Pass(o, c, u); Calm(o1) && !Stuck(o1, c) && !Stuck(Pass(o1, c, v), c)
    ensures var o2 := Pass(Pass(o, c, u), c, v);
            Calm(o2) && Calm(Pass(o2, c, x)) && Quiet(Pass(o2, c, x), c.maxIneligible)
  {
    PassSettles(o, c, u);
    var o1 := Pass(o, c, u);
    PassSettles(o1, c, v);
    SettledPassOnlyDeletes(o1, c, v);
    LastPassOnlyCreates(Pass(o1, c, v), c, x);
  }

  /** The target's Deployment is never deleted, so a target that has one is not stuck. */
  lemma {:induction false} TargetStays(o: Observed, c: Cluster, uid: nat)
    requires Calm(o) && o.target != "" && !Stuck(o, c) && (o.target in o.view || WantsCreate(o, c.maxIneligible))
    ensures var o' := Pass(o, c, uid); o'.target in o'.view && !Stuck(o', c) && !WantsCreate(o', c.maxIneligible)
  {
  }

  /** Blocked is what gets a pass stuck before the third is over. */
  lemma {:induction false} BlockedGetsStuck(o: Observed, c: Cluster, u: nat, v: nat)
    requires Calm(o) && o.target != "" && !Stuck(o, c)
    ensures Calm(Pass(o, c, u))
    ensures Blocked(o, c) <==> Stuck(Pass(o, c, u), c) || Stuck(Pass(Pass(o, c, u), c, v), c)
  {
    PassKeepsCalm(o, c, u);
    var o1 := Pass(o, c, u);
    if WantsCreate(o, c.maxIneligible) {
      TargetStays(o, c, u);
      TargetStays(o1, c, v);
    } else {
      PassDeletes(o, c, u);
      CreateDependsOnDeployments(Without(o, Deleted(o)), o1, c);
      if !Stuck(o1, c) && WantsCreate(o1, c.maxIneligible) {
        TargetStays(o1, c, v);
      } else if !Stuck(o1, c) {
        TwoPassesDelete(o, c, u, v);
        CreateDependsOnDeployments(Without(o, Doomed(o)), Pass(o1, c, v), c);
      }
    }
  }

  lemma {:induction false} PassesSplit(o: Observed, c: Cluster, uids: seq<nat>)
    requires Calm(o) && |uids| >= 3
    ensures Calm(Pass(o, c, uids[0]))
    ensures Passes(o, c, uids) == Passes(Pass(o, c, uids[0]), c, uids[1..])
    ensures Calm(Pass(Pass(o, c, uids[0]), c, uids[1]))
    ensures Passes(o, c, uids) == Passes(Pass(Pass(o, c, uids[0]), c, uids[1]), c, uids[2..])
    ensures Calm(Pass(Pass(Pass(o, c, uids[0]), c, uids[1]), c, uids[2]))
    ensures Passes(o, c, uids) == Passes(Pass(Pass(Pass(o, c, uids[0]), c, uids[1]), c, uids[2]), c, uids[3..])
  {
    assert uids[1..][1..] == uids[2..] && uids[2..][1..] == uids[3..];
    PassKeepsCalm(o, c, uids[0]);
    PassKeepsCalm(Pass(o, c, uids[0]), c, uids[1]);
    PassKeepsCalm(Pass(Pass(o, c, uids[0]), c, uids[1]), c, uids[2]);
  }

  /** Three passes, or any more, bring any number of Deployments to rest exactly if the target is not
      blocked; a blocked one leaves them at a plan that is refused for ever. */
  lemma {:induction false} ConvergesIffNotBlocked(o: Observed, c: Cluster, uids: seq<nat>)
    requires Calm(o) && o.target != "" && |uids| >= 3
    ensures Quiet(Passes(o, c, uids), c.maxIneligible) <==> !Blocked(o, c)
    ensures Stuck(Passes(o, c, uids), c) <==> Blocked(o, c)
  {
    if Stuck(o, c) {
      RestsForEver(o, c, uids);
      RestsIffQuietOrStuck(o, c, 0);
    } else {
      PassesSplit(o, c, uids);
      BlockedGetsStuck(o, c, uids[0], uids[1]);
      var o1 := Pass(o, c, uids[0]);
      var o2 := Pass(o1, c, uids[1]);
      if Stuck(o1, c) {
        RestsForEver(o1, c, uids[1..]);
        RestsIffQuietOrStuck(o1, c, 0);
      } else if Stuck(o2, c) {
        RestsForEver(o2, c, uids[2..]);
        RestsIffQuietOrStuck(o2, c, 0);
      } else {
        UnstuckConverges(o, c, uids[0], uids[1], uids[2]);
        var o3 := Pass(o2, c, uids[2]);
        RestsForEver(o3, c, uids[3..]);
        RestsIffQuietOrStuck(o3, c, 0);
      }
    }
  }

  /** In particular if the target's name is admissible and free. */
  lemma {:induction false} ConvergesInThreePasses(o: Observed, c: Cluster, uids: seq<nat>)
    requires Calm(o) && o.target != "" && |uids| >= 3
    requires o.target in o.view || !NameRefused(o, c)
    ensures Quiet(Passes(o, c, uids), c.maxIneligible)
  {
    ConvergesIffNotBlocked(o, c, uids);
    FreeNameStaysFree(o, c, Deleted(o));
    FreeNameStaysFree(o, c, Doomed(o));
  }

  lemma {:induction false} FreeNameStaysFree(o: Observed, c: Cluster, gone: set<BuildID>)
    requires Calm(o) && (gone == Deleted(o) || gone == Doomed(o)) && o.target != ""
    requires o.target in o.view || !NameRefused(o, c)
    ensures !Stuck(Without(o, gone), c)
  {
    if o.target in o.view {
      assert o.target in Without(o, gone).view;
    }
  }

  // Concrete worlds

  /** Version running runs and is current, one replica short. */
  ghost function Waiting(baseName: string, running: BuildID, target: BuildID): Observed {
    var ref := ObjectReference(ComputeVersionedDeploymentName(baseName, running), 7);
    var info := T.VersionInfo("d", running, VersionStatus.Current, None, [], [], false, false);
    var view := map[running := DeploymentView(ref, None, Some(1))];
    Observed(view, T.NOTHING_OBSERVED.(currentBuildID := running, versions := map[running := info]), view, target,
        Sizing(2, 1, 1), 10)
  }

  /** A create that is refused is refused in every pass, and the scale that the current version is due,
      planned behind it, is never made. */
  lemma {:induction false} RefusedBlocks(baseName: string, running: BuildID, target: BuildID, foreign: set<string>,
                                         uids: seq<nat>)
    requires running != "" && target != "" && running != target
    ensures var o, c := Waiting(baseName, running, target), Cluster(baseName, foreign, 75);
            && Calm(o) && WantedSize(running, o) == Some(2)
            && (NameRefused(o, c) ==> Stuck(o, c) && Passes(o, c, uids) == o)
  {
    var o, c := Waiting(baseName, running, target), Cluster(baseName, foreign, 75);
    assert Ineligible(o.view, o.ts) - {"", o.ts.currentBuildID, o.target} == {};
    if NameRefused(o, c) {
      RestsForEver(o, c, uids);
    }
  }

  /** The schema admits both build IDs, v1.0 and v1-0. */
  lemma {:induction false} DottedBlocksDashed(baseName: string, uids: seq<nat>)
    ensures var o, c := Waiting(baseName, "v1.0", "v1-0"), Cluster(baseName, {}, 75);
            Calm(o) && Stuck(o, c) && WantedSize("v1.0", o) == Some(2) && Passes(o, c, uids) == o
  {
    var o, c := Waiting(baseName, "v1.0", "v1-0"), Cluster(baseName, {}, 75);
    assert "v1.0"[2] != "v1-0"[2];
    DottedAndDashedShareAName(baseName);
    assert o.view["v1.0"].ref.name == ComputeVersionedDeploymentName(c.name, o.target);
    RefusedBlocks(baseName, "v1.0", "v1-0", {}, uids);
  }

  /** It admits V1 as well, whose Deployment is refused even in an empty namespace. */
  lemma {:induction false} CapitalBlocksItself(baseName: string, uids: seq<nat>)
    ensures var o, c := Waiting(baseName, "v0", "V1"), Cluster(baseName, {}, 75);
            Calm(o) && Stuck(o, c) && WantedSize("v0", o) == Some(2) && Passes(o, c, uids) == o
  {
    assert "v0"[0] != "V1"[0];
    CapitalIsInadmissible(baseName);
    RefusedBlocks(baseName, "v0", "V1", {}, uids);
  }

  /** One version, drained since time 0 and still polled, with the given replicas; the target is new. */
  ghost function OldAndNew(r: ObjectReference, replicas: nat): Observed {
    var view := map["old" := DeploymentView(r, None, Some(replicas))];
    Observed(view, T.NOTHING_OBSERVED.(versions := map["old" := T.VersionInfo("d", "old", Drained, Some(0), [], [],
        false, false)]), view,
             "new", Sizing(1, 1, 1), 10)
  }

  lemma {:induction false} OldIsCapped(r: ObjectReference, replicas: nat)
    ensures var o := OldAndNew(r, replicas);
            && Calm(o) && !WantsCreate(o, 1)
            && WantedSize("old", o) == (if replicas == 0 then None else Some(0))
            && (WantsDelete("old", o) <==> replicas == 0)
  {
    var o := OldAndNew(r, replicas);
    assert "old"[0] != "new"[0];
    assert Ineligible(o.view, o.ts) - {"", "", "new"} == {"old"};
  }

  /** Two passes are not enough: with the version cap reached by one long-drained version that is still
      running, the first pass scales it down, the second deletes it, and only the third may create. */
  lemma {:induction false} TwoPassesMayNotDo(r: ObjectReference, c: Cluster, uid: nat)
    requires c.maxIneligible == 1
    ensures var o := OldAndNew(r, 1);
            Calm(o) &&
            var o1 := Pass(o, c, uid);
            Calm(o1) &&
            var o2 := Pass(o1, c, uid);
            Calm(o2) && !Quiet(o, 1) && !Quiet(o1, 1) && !Quiet(o2, 1)
  {
    var o := OldAndNew(r, 1);
    OldIsCapped(r, 1);
    OldIsCapped(r, 0);
    assert "old"[0] != "new"[0];
    assert Pass(o, c, uid).view == OldAndNew(r, 0).view;
    var o1 := OldAndNew(r, 0);
    assert Pass(o, c, uid) == o1;
    var o2 := Pass(o1, c, uid);
    assert o2.view == map[];
    assert Ineligible(o2.view, o2.ts) - {"", "", "new"} == {};
  }
}
