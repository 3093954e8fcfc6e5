/** internal/controller/execplan.go: a plan is executed as one sequence of calls, which stops at the
    first that fails. */
module Execution {
  import opened Api
  import opened Rollout
  import opened Planner

  datatype Action =
    | Create(buildID: BuildID)
    | Delete(buildID: BuildID)
    | Scale(ref: ObjectReference, size: nat)
    | Update(buildID: BuildID)
    | StartTest(test: WorkflowConfig)
    | ChangeRouting(change: RoutingChange)
    | StampVersion(buildID: BuildID)
    | RemoveFlag(buildID: BuildID)

  /** The controller's plan; a Deployment is named by its build ID. */
  datatype Plan = Plan(
    create: Option<BuildID>,
    deletes: seq<BuildID>,
    scales: map<ObjectReference, nat>,
    updates: seq<BuildID>,
    tests: seq<WorkflowConfig>,
    change: Option<RoutingChange>,
    unflag: seq<BuildID>)

  ghost predicate ListsKeys(order: seq<ObjectReference>, m: map<ObjectReference, nat>) {
    && (forall i :: 0 <= i < |order| ==> order[i] in m)
    && (forall i, j :: 0 <= i < j < |order| ==> order[i] != order[j])
    && (forall ref :: ref in m ==> ref in order)
  }

  function CreateActions(p: Plan): seq<Action> {
    if p.create.Some? then [Create(p.create.value)] else []
  }

  function DeleteActions(p: Plan): seq<Action> {
    seq(|p.deletes|, i requires 0 <= i < |p.deletes| => Delete(p.deletes[i]))
  }

  function ScaleActions(p: Plan, order: seq<ObjectReference>): seq<Action>
    requires forall i :: 0 <= i < |order| ==> order[i] in p.scales
  {
    seq(|order|, i requires 0 <= i < |order| && order[i] in p.scales => Scale(order[i], p.scales[order[i]]))
  }

  function UpdateActions(p: Plan): seq<Action> {
    seq(|p.updates|, i requires 0 <= i < |p.updates| => Update(p.updates[i]))
  }

  function TestActions(p: Plan): seq<Action> {
    seq(|p.tests|, i requires 0 <= i < |p.tests| => StartTest(p.tests[i]))
  }

  function ChangeActions(p: Plan): seq<Action> {
    if p.change.Some? then [ChangeRouting(p.change.value), StampVersion(p.change.value.buildID)] else []
  }

  function UnflagActions(p: Plan): seq<Action> {
    seq(|p.unflag|, i requires 0 <= i < |p.unflag| => RemoveFlag(p.unflag[i]))
  }

  function ClusterActions(p: Plan, order: seq<ObjectReference>): seq<Action>
    requires forall i :: 0 <= i < |order| ==> order[i] in p.scales
  {
    CreateActions(p) + DeleteActions(p) + ScaleActions(p, order) + UpdateActions(p)
  }

  function RoutingActions(p: Plan): seq<Action> {
    ChangeActions(p) + UnflagActions(p)
  }

  /** All calls of a plan, the scales in the order in which the map happens to be visited. */
  function ActionsOf(p: Plan, order: seq<ObjectReference>): seq<Action>
    requires forall i :: 0 <= i < |order| ==> order[i] in p.scales
  {
    ClusterActions(p, order) + TestActions(p) + RoutingActions(p)
  }

  /** The servers a plan is executed against: they carry out some number of calls, then fail one. */
  class Servers {
    var done: seq<Action>
    var willing: nat

    constructor (willing: nat)
      ensures done == [] && this.willing == willing
    {
      done, this.willing := [], willing;
    }

    method Call(a: Action) returns (ok: bool)
      modifies this
      ensures ok <==> old(willing) > 0
      ensures ok ==> done == old(done) + [a] && willing == old(willing) - 1
      ensures !ok ==> unchanged(this)
    {
      if willing == 0 {
        return false;
      }
      willing := willing - 1;
      done := done + [a];
      return true;
    }

    /** One of the loops of executePlan: a call for each element, returning at the first error. */
    method CallEach(actions: seq<Action>) returns (ok: bool)
      modifies this
      ensures ok <==> old(willing) >= |actions|
      ensures ok ==> done == old(done) + actions && willing == old(willing) - |actions|
      ensures !ok ==> done == old(done) + actions[..old(willing)] && willing == 0
    {
      for i := 0 to |actions|
        invariant willing == old(willing) - i
        invariant done == old(done) + actions[..i]
      {
        assert actions[..i + 1] == actions[..i] + [actions[i]];
        var called := Call(actions[i]);
        if !called {
          return false;
        }
      }
      assert actions[..|actions|] == actions;
      return true;
    }
  }

  /** Go's range over a map: each key once, in any order. */
  method RangeOverKeys(m: map<ObjectReference, nat>) returns (order: seq<ObjectReference>)
    ensures ListsKeys(order, m)
  {
    order := [];
    var rest := m.Keys;
    while rest != {}
      invariant rest <= m.Keys
      invariant forall i :: 0 <= i < |order| ==> order[i] in m && order[i] !in rest
      invariant forall i, j :: 0 <= i < j < |order| ==> order[i] != order[j]
      invariant forall ref :: ref in m && ref !in rest ==> ref in order
      decreases rest
    {
      var ref :| ref in rest;
      rest := rest - {ref};
      order := order + [ref];
    }
  }

  /** executePlan: what has taken effect is a prefix of the plan's actions, all of them if it returns
      without an error. */
  method ExecutePlan(p: Plan, servers: Servers) returns (ok: bool, order: seq<ObjectReference>)
    modifies servers
    ensures ListsKeys(order, p.scales)
    ensures ok <==> old(servers.willing) >= |ActionsOf(p, order)|
    ensures servers.done == old(servers.done)
                            + if ok then ActionsOf(p, order) else ActionsOf(p, order)[..old(servers.willing)]
  {
    order := RangeOverKeys(p.scales);
    var cluster, tests, routing := ClusterActions(p, order), TestActions(p), RoutingActions(p);
    PrefixesOf(old(servers.done), cluster, tests, routing, old(servers.willing));
    ok := servers.CallEach(cluster);
    if !ok {
      return;
    }
    ok := servers.CallEach(tests);
    if !ok {
      return;
    }
    ok := servers.CallEach(routing);
  }

  /** Calls done one list after the other are a prefix of the lists together. */
  lemma {:induction false} PrefixesOf(done: seq<Action>, a: seq<Action>, b: seq<Action>, c: seq<Action>, n: nat)
    ensures n < |a| ==> done + a[..n] == done + (a + b + c)[..n]
    ensures |a| <= n < |a| + |b| ==> done + a + b[..n - |a|] == done + (a + b + c)[..n]
    ensures |a| + |b| <= n < |a| + |b| + |c| ==> done + a + b + c[..n - |a| - |b|] == done + (a + b + c)[..n]
    ensures done + a + b + c == done + (a + b + c)
  {
  }

  // What is called, and how often

  /** How often p asks for a. */
  function Times(a: Action, p: Plan): nat {
    match a
    case Create(b) => if p.create == Some(b) then 1 else 0
    case Delete(b) => multiset(p.deletes)[b]
    case Scale(ref, size) => if ref in p.scales && p.scales[ref] == size then 1 else 0
    case Update(b) => multiset(p.updates)[b]
    case StartTest(test) => multiset(p.tests)[test]
    case ChangeRouting(change) => if p.change == Some(change) then 1 else 0
    case StampVersion(b) => if p.change.Some? && p.change.value.buildID == b then 1 else 0
    case RemoveFlag(b) => multiset(p.unflag)[b]
  }

  lemma {:induction false} MappedCount<X>(xs: seq<X>, actions: seq<Action>, f: X -> Action, x: X)
    requires |actions| == |xs| && forall i :: 0 <= i < |xs| ==> actions[i] == f(xs[i])
    requires forall y :: f(y) == f(x) ==> y == x
    ensures multiset(actions)[f(x)] == multiset(xs)[x]
  {
    if xs != [] {
      var n := |xs| - 1;
      MappedCount(xs[..n], actions[..n], f, x);
      assert actions == actions[..n] + [actions[n]] && xs == xs[..n] + [xs[n]];
    }
  }

  lemma {:induction false} DistinctCount(actions: seq<Action>, a: Action)
    requires forall i, j :: 0 <= i < j < |actions| ==> actions[i] != actions[j]
    ensures multiset(actions)[a] == if a in actions then 1 else 0
  {
    if actions != [] {
      var n := |actions| - 1;
      DistinctCount(actions[..n], a);
      assert actions == actions[..n] + [actions[n]];
    }
  }

  lemma {:induction false} DeleteCount(p: Plan, a: Action)
    ensures multiset(DeleteActions(p))[a] == if a.Delete? then Times(a, p) else 0
  {
    if a.Delete? {
      MappedCount(p.deletes, DeleteActions(p), x => Delete(x), a.buildID);
    } else {
      assert a !in DeleteActions(p);
    }
  }

  lemma {:induction false} ScaleCount(p: Plan, order: seq<ObjectReference>, a: Action)
    requires ListsKeys(order, p.scales)
    ensures multiset(ScaleActions(p, order))[a] == if a.Scale? then Times(a, p) else 0
  {
    var scales := ScaleActions(p, order);
    DistinctCount(scales, a);
    if a.Scale? && a.ref in p.scales {
      var k :| 0 <= k < |order| && order[k] == a.ref;
      assert scales[k] == Scale(a.ref, p.scales[a.ref]);
    }
  }

  lemma {:induction false} UpdateCount(p: Plan, a: Action)
    ensures multiset(UpdateActions(p))[a] == if a.Update? then Times(a, p) else 0
  {
    if a.Update? {
      MappedCount(p.updates, UpdateActions(p), x => Update(x), a.buildID);
    } else {
      assert a !in UpdateActions(p);
    }
  }

  lemma {:induction false} TestCount(p: Plan, a: Action)
    ensures multiset(TestActions(p))[a] == if a.StartTest? then Times(a, p) else 0
  {
    if a.StartTest? {
      MappedCount(p.tests, TestActions(p), x => StartTest(x), a.test);
    } else {
      assert a !in TestActions(p);
    }
  }

  lemma {:induction false} UnflagCount(p: Plan, a: Action)
    ensures multiset(UnflagActions(p))[a] == if a.RemoveFlag? then Times(a, p) else 0
  {
    if a.RemoveFlag? {
      MappedCount(p.unflag, UnflagActions(p), x => RemoveFlag(x), a.buildID);
    } else {
      assert a !in UnflagActions(p);
    }
  }

  lemma {:induction false} CountsAdd(x: seq<Action>, y: seq<Action>, a: Action)
    ensures multiset(x + y)[a] == multiset(x)[a] + multiset(y)[a]
  {
  }

  lemma {:induction false} ClusterCount(p: Plan, order: seq<ObjectReference>, a: Action)
    requires ListsKeys(order, p.scales)
    ensures multiset(ClusterActions(p, order))[a]
            == if a.Create? || a.Delete? || a.Scale? || a.Update? then Times(a, p) else 0
  {
    var creates, deletes, scales := CreateActions(p), DeleteActions(p), ScaleActions(p, order);
    CountsAdd(creates, deletes, a);
    CountsAdd(creates + deletes, scales, a);
    CountsAdd(creates + deletes + scales, UpdateActions(p), a);
    DeleteCount(p, a);
    ScaleCount(p, order, a);
    UpdateCount(p, a);
  }

  lemma {:induction false} RoutingCount(p: Plan, a: Action)
    ensures multiset(RoutingActions(p))[a]
            == if a.ChangeRouting? || a.StampVersion? || a.RemoveFlag? then Times(a, p) else 0
  {
    CountsAdd(ChangeActions(p), UnflagActions(p), a);
    UnflagCount(p, a);
  }

  /** A plan's calls are what it lists, each as often as it is listed: its create, its deletes, its scales,
      its updates, its tests, its change with the stamp, its flag removals. */
  lemma {:induction false} EveryCallAsListed(p: Plan, order: seq<ObjectReference>, a: Action)
    requires ListsKeys(order, p.scales)
    ensures multiset(ActionsOf(p, order))[a] == Times(a, p)
    ensures a in ActionsOf(p, order) <==> Times(a, p) > 0
  {
    CountsAdd(ClusterActions(p, order), TestActions(p), a);
    CountsAdd(ClusterActions(p, order) + TestActions(p), RoutingActions(p), a);
    ClusterCount(p, order, a);
    TestCount(p, a);
    RoutingCount(p, a);
    assert a in ActionsOf(p, order) <==> a in multiset(ActionsOf(p, order));
  }

  /** The kinds of calls in the source's order. */
  function Stage(a: Action): nat {
    match a
    case Create(_) => 0
    case Delete(_) => 1
    case Scale(_, _) => 2
    case Update(_) => 3
    case StartTest(_) => 4
    case ChangeRouting(_) => 5
    case StampVersion(_) => 6
    case RemoveFlag(_) => 7
  }

  ghost predicate InStages(actions: seq<Action>) {
    forall i, j :: 0 <= i < j < |actions| ==> Stage(actions[i]) <= Stage(actions[j])
  }

  /** The calls come in stages, none of them beyond stages first to last. */
  ghost predicate Spans(actions: seq<Action>, first: nat, last: nat) {
    InStages(actions) && forall i :: 0 <= i < |actions| ==> first <= Stage(actions[i]) <= last
  }

  lemma {:induction false} SpansJoin(x: seq<Action>, y: seq<Action>, first: nat, middle: nat, last: nat)
    requires Spans(x, first, middle) && Spans(y, middle, last) && first <= middle <= last
    ensures Spans(x + y, first, last)
  {
    var z := x + y;
    assert forall i :: 0 <= i < |x| ==> z[i] == x[i];
    assert forall i :: |x| <= i < |z| ==> z[i] == y[i - |x|];
  }

  /** Creates, deletes, scales, updates, gate workflows, the routing change, its stamp, flag removals. */
  lemma {:induction false} CallsComeInStages(p: Plan, order: seq<ObjectReference>)
    requires ListsKeys(order, p.scales)
    ensures InStages(ActionsOf(p, order))
  {
    ClusterInStages(p, order);
    RoutingInStages(p);
    SpansJoin(ClusterActions(p, order), TestActions(p), 0, 4, 4);
    SpansJoin(ClusterActions(p, order) + TestActions(p), RoutingActions(p), 0, 5, 7);
  }

  lemma {:induction false} ClusterInStages(p: Plan, order: seq<ObjectReference>)
    requires ListsKeys(order, p.scales)
    ensures Spans(ClusterActions(p, order), 0, 3)
  {
    var creates, deletes, scales := CreateActions(p), DeleteActions(p), ScaleActions(p, order);
    SpansJoin(creates, deletes, 0, 1, 1);
    SpansJoin(creates + deletes, scales, 0, 2, 2);
    SpansJoin(creates + deletes + scales, UpdateActions(p), 0, 3, 3);
  }

  lemma {:induction false} RoutingInStages(p: Plan)
    ensures Spans(RoutingActions(p), 5, 7)
  {
    SpansJoin(ChangeActions(p), UnflagActions(p), 5, 7, 7);
  }

  // What any prefix guarantees

  lemma {:induction false} KindsOfActions(p: Plan, order: seq<ObjectReference>, i: nat)
    requires ListsKeys(order, p.scales) && i < |ActionsOf(p, order)|
    ensures var a := ActionsOf(p, order)[i];
            if i < |ClusterActions(p, order)| then a.Create? || a.Delete? || a.Scale? || a.Update?
            else if i < |ClusterActions(p, order) + TestActions(p)| then a.StartTest? && a.test in p.tests
            else (a.ChangeRouting? && p.change == Some(a.change)) || a.StampVersion? || a.RemoveFlag?
  {
  }

  lemma {:induction false} ClusterActionsAreThePlans(p: Plan, order: seq<ObjectReference>, a: Action)
    requires ListsKeys(order, p.scales) && a in ActionsOf(p, order)
    ensures a.Delete? ==> a.buildID in p.deletes
    ensures a.Create? ==> p.create == Some(a.buildID)
    ensures a.Scale? ==> a.ref in p.scales && p.scales[a.ref] == a.size
  {
  }

  lemma {:induction false} CreateComesFirst(p: Plan, order: seq<ObjectReference>, i: nat)
    requires ListsKeys(order, p.scales) && i < |ActionsOf(p, order)|
    requires ActionsOf(p, order)[i].Create?
    ensures i == 0
  {
    KindsOfActions(p, order, i);
  }

  /** Routing changes only after the cluster is in shape and all gate workflows have started; ignore
      flags go only after the routing change they were read for. */
  lemma {:induction false} RoutingComesLate(p: Plan, order: seq<ObjectReference>, n: nat)
    requires ListsKeys(order, p.scales) && n <= |ActionsOf(p, order)|
    ensures (exists i :: 0 <= i < n
              && (ActionsOf(p, order)[i].ChangeRouting? || ActionsOf(p, order)[i].RemoveFlag?)) ==>
              ClusterActions(p, order) + TestActions(p) <= ActionsOf(p, order)[..n]
    ensures (exists i :: 0 <= i < n && ActionsOf(p, order)[i].RemoveFlag?) && p.change.Some? ==>
              ChangeRouting(p.change.value) in ActionsOf(p, order)[..n]
  {
    var all := ActionsOf(p, order);
    var early := ClusterActions(p, order) + TestActions(p);
    forall i | 0 <= i < |early|
      ensures !all[i].ChangeRouting? && !all[i].RemoveFlag?
    {
      KindsOfActions(p, order, i);
    }
    if i :| 0 <= i < n && (all[i].ChangeRouting? || all[i].RemoveFlag?) {
      assert all[..n][..|early|] == early;
    }
    if p.change.Some? {
      assert all[|early|] == ChangeRouting(p.change.value);
      if i :| 0 <= i < n && all[i].RemoveFlag? {
        assert all[..n][|early|] == ChangeRouting(p.change.value);
      }
    }
  }
}
