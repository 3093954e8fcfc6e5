/** Runs of the controller over the managed Deployments: the world changes under its hands, between its
    looks at it and between its calls, it crashes, and any prefix of a plan may have taken effect. */
module Lifecycle {
  import opened Api
  import opened Kubernetes
  import opened Planner
  import opened StateMapper
  import opened Decisions
  import opened Execution
  import T = Temporal

  /** The cluster, what the server would answer, the resource's target and sizes, the time. */
  datatype State = State(view: View, ts: T.TemporalState, target: BuildID, sizing: Sizing, clock: Time)

  /** Where the reconcile stands. It reads the resource and lists the Deployments, asks the server and
      stores the status, lists the Deployments again and plans; it keeps what it found each time. */
  datatype Phase =
    | Idle
    | Listed(first: State)
    | Mapped(first: State, told: State, s: Status)
    | Planned(first: State, told: State, last: State, rest: seq<Action>)

  datatype World = World(now: State, phase: Phase)

  function Seen(first: State, told: State, last: State): Observed {
    Observed(first.view, told.ts, last.view, first.target, first.sizing, last.clock)
  }

  ghost predicate PlansActions(rest: seq<Action>, s: Status, o: Observed, maxIneligible: int)
    requires StatusFor(s, o) && DrainsKnown(o)
  {
    exists p, order :: PlanFrom(p, s, o, maxIneligible) && ListsKeys(order, p.scales) && rest == ActionsOf(p, order)
  }

  /** Anything but a new Deployment may come from outside: the server and the users move on, replicas
      change, Deployments disappear, time passes. */
  ghost predicate EnvironmentStep(w: World, w': World) {
    && w'.phase == w.phase
    && w'.now.clock >= w.now.clock
    && forall b :: b in w'.now.view ==> b in w.now.view && w'.now.view[b].ref == w.now.view[b].ref
  }

  ghost predicate ListStep(w: World, w': World) {
    w' == w.(phase := Listed(w.now))
  }

  ghost predicate AskStep(w: World, w': World) {
    && w.phase.Listed? && w'.now == w.now && w'.phase.Mapped?
    && w'.phase.first == w.phase.first && w'.phase.told == w.now
    && IsRead(w'.phase.s, w.phase.first.view, w.now.ts, w.phase.first.target)
  }

  ghost predicate PlanStep(w: World, w': World, maxIneligible: int) {
    && w.phase.Mapped? && w'.now == w.now && w'.phase.Planned?
    && w'.phase.first == w.phase.first && w'.phase.told == w.phase.told && w'.phase.last == w.now
    && var o := AsStored(Seen(w.phase.first, w.phase.told, w.now));
       StatusFor(w.phase.s, o) && DrainsKnown(o) && PlansActions(w'.phase.rest, w.phase.s, o, maxIneligible)
  }

  ghost predicate Takes(a: Action, sizing: Sizing, view: View, view': View) {
    match a
    case Create(b) => b !in view && exists ref :: view' == view[b := DeploymentView(ref, None, Some(sizing.replicas))]
    case Delete(b) => b in view && view' == view - {b}
    case Scale(ref, size) =>
      exists b :: b in view && view[b].ref == ref && view' == view[b := view[b].(replicas := Some(size))]
    case _ => view' == view
  }

  /** The next call takes effect, or it fails and the rest of the plan is dropped. */
  ghost predicate ExecuteStep(w: World, w': World) {
    && w.phase.Planned? && w.phase.rest != []
    && (|| w' == w.(phase := Idle)
        || (&& w' == World(w.now.(view := w'.now.view), w.phase.(rest := w.phase.rest[1..]))
            && Takes(w.phase.rest[0], w.phase.first.sizing, w.now.view, w'.now.view)))
  }

  ghost predicate CrashStep(w: World, w': World) {
    w' == w.(phase := Idle)
  }

  ghost predicate Step(w: World, w': World, maxIneligible: int) {
    || EnvironmentStep(w, w') || ListStep(w, w') || AskStep(w, w') || PlanStep(w, w', maxIneligible)
    || ExecuteStep(w, w') || CrashStep(w, w')
  }

  ghost predicate IsRun(run: seq<World>, maxIneligible: int) {
    && run != [] && run[0].phase.Idle?
    && forall i :: 0 <= i < |run| - 1 ==> Step(run[i], run[i + 1], maxIneligible)
  }

  // Where a plan comes from

  /** Every delete still to make is wanted by what was seen. */
  ghost predicate DeletesWanted(p: Phase) {
    p.Planned? ==>
      var o := AsStored(Seen(p.first, p.told, p.last));
      DrainsKnown(o) && forall b :: Delete(b) in p.rest ==> WantsDelete(b, o)
  }

  lemma {:induction false} PlannedDeletesAreWanted(rest: seq<Action>, s: Status, o: Observed, maxIneligible: int)
    requires StatusFor(s, o) && DrainsKnown(o) && PlansActions(rest, s, o, maxIneligible)
    ensures forall b :: Delete(b) in rest ==> WantsDelete(b, o)
  {
    var p, order :| PlanFrom(p, s, o, maxIneligible) && ListsKeys(order, p.scales) && rest == ActionsOf(p, order);
    forall b | Delete(b) in rest
      ensures WantsDelete(b, o)
    {
      ClusterActionsAreThePlans(p, order, Delete(b));
      DeletePlanIsExact(s, o, b);
    }
  }

  lemma {:induction false} DeletesStayWanted(w: World, w': World, maxIneligible: int)
    requires Step(w, w', maxIneligible) && DeletesWanted(w.phase)
    ensures DeletesWanted(w'.phase)
  {
    if PlanStep(w, w', maxIneligible) {
      PlannedDeletesAreWanted(w'.phase.rest, w.phase.s, AsStored(Seen(w.phase.first, w.phase.told, w.now)),
          maxIneligible);
    }
  }

  lemma {:induction false} AllDeletesWanted(run: seq<World>, maxIneligible: int, k: nat)
    requires IsRun(run, maxIneligible) && k < |run|
    ensures DeletesWanted(run[k].phase)
  {
    if k > 0 {
      AllDeletesWanted(run, maxIneligible, k - 1);
      assert Step(run[k - 1], run[k], maxIneligible);
      DeletesStayWanted(run[k - 1], run[k], maxIneligible);
    }
  }

  ghost predicate WasAt(st: State, run: seq<World>, i: nat) {
    i < |run| && run[i].now == st
  }

  /** What the reconcile at k has kept are states of the run, one after the other. */
  ghost predicate KeptFromRun(run: seq<World>, k: nat)
    requires k < |run|
  {
    match run[k].phase
    case Idle => true
    case Listed(first) => exists i: nat :: i <= k && WasAt(first, run, i)
    case Mapped(first, told, _) => exists i: nat, j: nat :: i <= j <= k && WasAt(first, run, i) && WasAt(told, run, j)
    case Planned(first, told, last, _) =>
      exists i: nat, j: nat, l: nat :: i <= j <= l <= k && WasAt(first, run, i) && WasAt(told, run, j)
        && WasAt(last, run, l)
  }

  lemma {:induction false} LooksAreKept(run: seq<World>, maxIneligible: int, k: nat)
    requires k + 1 < |run| && Step(run[k], run[k + 1], maxIneligible) && KeptFromRun(run, k)
    ensures KeptFromRun(run, k + 1)
  {
    var w, w' := run[k], run[k + 1];
    if ListStep(w, w') {
      assert WasAt(w'.phase.first, run, k);
    } else if AskStep(w, w') {
      var i: nat :| i <= k && WasAt(w.phase.first, run, i);
      assert WasAt(w'.phase.first, run, i) && WasAt(w'.phase.told, run, k);
    } else if PlanStep(w, w', maxIneligible) {
      var i: nat, j: nat :| i <= j <= k && WasAt(w.phase.first, run, i) && WasAt(w.phase.told, run, j);
      assert WasAt(w'.phase.first, run, i) && WasAt(w'.phase.told, run, j) && WasAt(w'.phase.last, run, k);
    } else {
      PhaseIsHandedOn(run, maxIneligible, k);
    }
  }

  lemma {:induction false} PhaseIsHandedOn(run: seq<World>, maxIneligible: int, k: nat)
    requires k + 1 < |run| && KeptFromRun(run, k)
    requires var w, w' := run[k], run[k + 1];
             EnvironmentStep(w, w') || ExecuteStep(w, w') || CrashStep(w, w')
    ensures KeptFromRun(run, k + 1)
  {
    var w, w' := run[k], run[k + 1];
    match w'.phase
    case Idle =>
    case Listed(first) =>
      var i: nat :| i <= k && WasAt(w.phase.first, run, i);
      assert WasAt(first, run, i);
    case Mapped(first, told, _) =>
      var i: nat, j: nat :| i <= j <= k && WasAt(w.phase.first, run, i) && WasAt(w.phase.told, run, j);
      assert WasAt(first, run, i) && WasAt(told, run, j);
    case Planned(first, told, last, _) =>
      var i: nat, j: nat, l: nat :|
        i <= j <= l <= k && WasAt(w.phase.first, run, i) && WasAt(w.phase.told, run, j) && WasAt(w.phase.last, run, l);
      assert WasAt(first, run, i) && WasAt(told, run, j) && WasAt(last, run, l);
  }

  lemma {:induction false} AllKeptFromRun(run: seq<World>, maxIneligible: int, k: nat)
    requires IsRun(run, maxIneligible) && k < |run|
    ensures KeptFromRun(run, k)
  {
    if k > 0 {
      AllKeptFromRun(run, maxIneligible, k - 1);
      assert Step(run[k - 1], run[k], maxIneligible);
      LooksAreKept(run, maxIneligible, k - 1);
    }
  }

  // Sunset

  /** b is listed in first and is not its target; the server tells in told that b is drained, or unknown
      among others it knows, and not current; and if drained, then in last it has no replicas left and
      both delays are over, counted from the whole second of the drain time. */
  ghost predicate SunsetSeen(b: BuildID, first: State, told: State, last: State) {
    && b in first.view && b in last.view && b != "" && b != first.target && b != told.ts.currentBuildID
    && match StatusIn(b, told.ts)
       case Drained =>
         && told.ts.versions[b].drainedSince.Some?
         && last.clock > WholeSecond(told.ts.versions[b].drainedSince.value) + first.sizing.scaledownDelay
            + first.sizing.deleteDelay
         && last.view[b].replicas == Some(0)
       case NotRegistered => told.ts.versions != map[]
       case _ => false
  }

  /** That is exactly what the planner deletes on. */
  lemma {:induction false} SunsetIsDecided(b: BuildID, first: State, told: State, last: State)
    requires DrainsKnown(AsStored(Seen(first, told, last)))
    ensures WantsDelete(b, AsStored(Seen(first, told, last))) <==> SunsetSeen(b, first, told, last)
  {
    var o := Seen(first, told, last);
    CoarseKeepsCount(told.ts);
    CoarseDeprecated(b, o.view, o.ts);
    if IsDeprecated(b, o.view, o.ts, o.target) {
      assert DrainKnown(MapDeprecated(b, o.view, Coarse(o.ts)), o.later);
    }
  }

  /** Over all runs, a delete call was preceded by three moments of the run, in this order, at which the
      Deployment was listed, its version's sunset told, and its replicas gone and the delays over. */
  lemma {:induction false} DeletedOnlyAfterSunset(run: seq<World>, maxIneligible: int, k: nat, b: BuildID)
    requires IsRun(run, maxIneligible) && k < |run|
    requires run[k].phase.Planned? && run[k].phase.rest != [] && run[k].phase.rest[0] == Delete(b)
    ensures exists i: nat, j: nat, l: nat :: i <= j <= l <= k && SunsetSeen(b, run[i].now, run[j].now, run[l].now)
  {
    var p := run[k].phase;
    AllKeptFromRun(run, maxIneligible, k);
    AllDeletesWanted(run, maxIneligible, k);
    assert p.rest[0] in p.rest;
    SunsetIsDecided(b, p.first, p.told, p.last);
    var i: nat, j: nat, l: nat :|
      i <= j <= l <= k && WasAt(p.first, run, i) && WasAt(p.told, run, j) && WasAt(p.last, run, l);
    assert SunsetSeen(b, run[i].now, run[j].now, run[l].now);
  }

  /** The planner keeps the two delays in full, whenever it looks, exactly for drain times that are whole
      seconds. One nanosecond past a second, it deletes a version early. */
  lemma {:induction false} FullDelayIffWholeSecond(b: BuildID, o: Observed)
    requires DrainsKnown(AsStored(o))
    requires IsDeprecated(b, o.view, o.ts, o.target) && StatusIn(b, o.ts) == Drained
    requires b in o.later && o.later[b].replicas == Some(0)
    ensures o.ts.versions[b].drainedSince.Some? && forall now :: DrainsKnown(AsStored(o.(now := now)))
    ensures var since, both := o.ts.versions[b].drainedSince.value, o.sizing.scaledownDelay + o.sizing.deleteDelay;
            (forall now :: WantsDelete(b, AsStored(o.(now := now))) ==> now > since + both) <==> since % SECOND == 0
  {
    assert DrainKnown(MapDeprecated(b, o.view, Coarse(o.ts)), o.later);
    var since, both := o.ts.versions[b].drainedSince.value, o.sizing.scaledownDelay + o.sizing.deleteDelay;
    forall now
      ensures DrainsKnown(AsStored(o.(now := now)))
      ensures WantsDelete(b, AsStored(o.(now := now))) <==> now > WholeSecond(since) + both
    {
      CoarseDeprecated(b, o.view, o.ts);
    }
    assert WantsDelete(b, AsStored(o.(now := since + both))) <==> WholeSecond(since) < since;
  }

  // The version cap

  /** Versions do not become ineligible again once they are eligible for deletion. */
  ghost predicate StaysEligible(w: World, w': World) {
    forall b :: b in w'.now.view && Eligible(b, w.now.ts) ==> Eligible(b, w'.now.ts)
  }

  ghost predicate HasCreate(w: World) {
    w.phase.Planned? && exists i :: 0 <= i < |w.phase.rest| && w.phase.rest[i].Create?
  }

  ghost function IneligibleNow(w: World): set<BuildID> {
    Ineligible(w.now.view, w.now.ts)
  }

  /** What has happened since the looks of an unfinished reconcile can only have lowered the count. */
  ghost predicate CountOnlyFell(w: World) {
    match w.phase
    case Listed(first) => "" !in first.view && first.target != "" && w.now.view.Keys <= first.view.Keys
    case Mapped(first, told, _) =>
      && "" !in first.view && first.target != "" && w.now.view.Keys <= first.view.Keys
      && forall b :: b in w.now.view && Eligible(b, told.ts) ==> Eligible(b, w.now.ts)
    case _ => true
  }

  ghost predicate CapHolds(w: World, maxIneligible: nat) {
    && "" !in w.now.view
    && CountOnlyFell(w)
    && |IneligibleNow(w)| <= maxIneligible + 1
    && (HasCreate(w) ==>
          && |IneligibleNow(w)| <= maxIneligible
          && w.phase.rest[0].Create? && w.phase.rest[0].buildID != ""
          && forall i :: 0 < i < |w.phase.rest| ==> !w.phase.rest[i].Create?)
  }

  lemma {:induction false} SubsetIsSmaller<X>(a: set<X>, b: set<X>)
    requires a <= b
    ensures |a| <= |b|
  {
    if a != b {
      var x :| x in b && x !in a;
      assert b == (b - {x}) + {x};
      SubsetIsSmaller(a, b - {x});
    }
  }

  lemma {:induction false} PlannedCreateFits(rest: seq<Action>, s: Status, o: Observed, maxIneligible: nat)
    requires StatusFor(s, o) && DrainsKnown(o) && PlansActions(rest, s, o, maxIneligible) && "" !in o.view
             && o.target != ""
    requires exists i :: 0 <= i < |rest| && rest[i].Create?
    ensures |Ineligible(o.view, o.ts)| <= maxIneligible
    ensures rest[0] == Create(o.target)
    ensures forall i :: 0 < i < |rest| ==> !rest[i].Create?
  {
    var p, order :| PlanFrom(p, s, o, maxIneligible) && ListsKeys(order, p.scales) && rest == ActionsOf(p, order);
    CreatesAreTheFirst(p, order, o.target);
    CreateIsExact(s, o, maxIneligible);
    WantedCreateFits(o, maxIneligible);
  }

  lemma {:induction false} CreatesAreTheFirst(p: Plan, order: seq<ObjectReference>, target: BuildID)
    requires ListsKeys(order, p.scales) && (p.create.Some? ==> p.create == Some(target))
    ensures forall i :: 0 <= i < |ActionsOf(p, order)| && ActionsOf(p, order)[i].Create? ==>
              i == 0 && ActionsOf(p, order)[i] == Create(target) && p.create.Some?
  {
    var actions := ActionsOf(p, order);
    forall i | 0 <= i < |actions| && actions[i].Create?
      ensures i == 0 && actions[i] == Create(target) && p.create.Some?
    {
      CreateComesFirst(p, order, i);
      ClusterActionsAreThePlans(p, order, actions[i]);
    }
  }

  lemma {:induction false} WantedCreateFits(o: Observed, maxIneligible: nat)
    requires WantsCreate(o, maxIneligible) && "" !in o.view && o.target != ""
    ensures |Ineligible(o.view, o.ts)| <= maxIneligible
  {
    var all := Ineligible(o.view, o.ts);
    var others := all - {"", o.ts.currentBuildID, o.target};
    SubsetIsSmaller(all, others + {o.ts.currentBuildID});
  }

  lemma {:induction false} EnvironmentKeepsCap(w: World, w': World, maxIneligible: nat)
    requires EnvironmentStep(w, w') && StaysEligible(w, w') && CapHolds(w, maxIneligible)
    ensures CapHolds(w', maxIneligible)
  {
    SubsetIsSmaller(IneligibleNow(w'), IneligibleNow(w));
  }

  lemma {:induction false} PlanningKeepsCap(w: World, w': World, maxIneligible: nat)
    requires PlanStep(w, w', maxIneligible) && CapHolds(w, maxIneligible)
    ensures CapHolds(w', maxIneligible)
  {
    if HasCreate(w') {
      var o := AsStored(Seen(w.phase.first, w.phase.told, w.now));
      PlannedCreateFits(w'.phase.rest, w.phase.s, o, maxIneligible);
      assert Ineligible(o.view, o.ts) == Ineligible(o.view, w.phase.told.ts);
      SubsetIsSmaller(IneligibleNow(w'), Ineligible(o.view, o.ts));
    }
  }

  lemma {:induction false} ExecutingKeepsCap(w: World, w': World, maxIneligible: nat)
    requires ExecuteStep(w, w') && w'.phase.Planned? && CapHolds(w, maxIneligible)
    ensures CapHolds(w', maxIneligible)
  {
    var before, after := IneligibleNow(w), IneligibleNow(w');
    var a := w.phase.rest[0];
    if a.Create? {
      assert HasCreate(w);
      assert after <= before + {a.buildID};
      SubsetIsSmaller(after, before + {a.buildID});
    } else {
      assert after <= before;
      SubsetIsSmaller(after, before);
      RestHasNoNewCreate(w, w');
    }
  }

  lemma {:induction false} RestHasNoNewCreate(w: World, w': World)
    requires w.phase.Planned? && w.phase.rest != [] && w'.phase == w.phase.(rest := w.phase.rest[1..])
    ensures HasCreate(w') ==> HasCreate(w)
  {
    var rest := w.phase.rest;
    if i :| 0 <= i < |rest[1..]| && rest[1..][i].Create? {
      assert rest[i + 1].Create?;
    }
  }

  lemma {:induction false} CapIsKept(w: World, w': World, maxIneligible: nat)
    requires Step(w, w', maxIneligible) && StaysEligible(w, w') && w.now.target != ""
    requires CapHolds(w, maxIneligible)
    ensures CapHolds(w', maxIneligible)
  {
    if EnvironmentStep(w, w') {
      EnvironmentKeepsCap(w, w', maxIneligible);
    } else if PlanStep(w, w', maxIneligible) {
      PlanningKeepsCap(w, w', maxIneligible);
    } else if ExecuteStep(w, w') && w'.phase.Planned? {
      ExecutingKeepsCap(w, w', maxIneligible);
    } else {
      assert IneligibleNow(w') == IneligibleNow(w);
    }
  }

  /** The cap as an invariant of runs from an empty cluster in which eligible versions stay eligible:
      never more than max + 1 managed versions that the server could not delete. */
  lemma {:induction false} VersionCap(run: seq<World>, maxIneligible: nat, k: nat)
    requires IsRun(run, maxIneligible) && k < |run|
    requires run[0].now.view == map[]
    requires forall i :: 0 <= i < |run| ==> run[i].now.target != ""
    requires forall i :: 0 <= i < |run| - 1 ==> StaysEligible(run[i], run[i + 1])
    ensures |IneligibleNow(run[k])| <= maxIneligible + 1
    ensures CapHolds(run[k], maxIneligible)
  {
    if k == 0 {
      assert IneligibleNow(run[0]) == {};
    } else {
      VersionCap(run, maxIneligible, k - 1);
      assert Step(run[k - 1], run[k], maxIneligible) && StaysEligible(run[k - 1], run[k]);
      CapIsKept(run[k - 1], run[k], maxIneligible);
    }
  }
}
