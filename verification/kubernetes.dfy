/** Managed Deployments and the state read back from the cluster: internal/k8s/deployments.go. */
module Kubernetes {
  import opened Api
  import opened PodTemplates
  import opened BuildIds

  datatype Condition = Condition(available: bool, isTrue: bool, lastTransition: Time)

  /** The parts of the spec that a Deployment is built from. */
  datatype DeploymentSpec = DeploymentSpec(
    replicas: nat,
    minReadySeconds: int,
    template: PodTemplate,
    temporalNamespace: string,
    customBuildID: string)

  /** appsv1.Deployment. The planner updates replicas, minReadySeconds and template in place. */
  class Deployment {
    const name: string
    const uid: nat
    const creationTimestamp: Time
    const labels: map<string, string>
    const selector: map<string, string>
    const conditions: seq<Condition>
    var replicas: Option<nat>
    var minReadySeconds: int
    var template: PodTemplate

    constructor (name: string, uid: nat, creationTimestamp: Time, labels: map<string, string>,
                 replicas: Option<nat>, minReadySeconds: int, template: PodTemplate)
      ensures this.name == name && this.uid == uid && this.creationTimestamp == creationTimestamp
      ensures this.labels == labels && this.selector == labels && this.conditions == []
      ensures this.replicas == replicas && this.minReadySeconds == minReadySeconds && this.template == template
    {
      this.name, this.uid, this.creationTimestamp := name, uid, creationTimestamp;
      this.labels, this.selector, this.conditions := labels, labels, [];
      this.replicas, this.minReadySeconds, this.template := replicas, minReadySeconds, template;
    }

    function Ref(): ObjectReference {
      ObjectReference(name, uid)
    }
  }

  function SelectorLabels(resourceName: string, buildID: BuildID): map<string, string> {
    map[TWD_NAME_LABEL := TruncateString(CleanStringForDNS(resourceName), 63),
        BUILD_ID_LABEL := TruncateString(buildID, 63)]
  }

  /** Both labels are admissible for every build ID that is a label value, and name the resource, its
      dots cleaned away, and the build. */
  lemma {:induction false} SelectorLabelsAreValid(resourceName: string, b: BuildID)
    requires ResourceName(resourceName) && LowerAlphanumeric(resourceName[|resourceName| - 1]) && ValidLabelValue(b)
    ensures var labels := SelectorLabels(resourceName, b);
            && labels.Keys == {"temporal.io/deployment-name", "temporal.io/build-id"}
            && labels["temporal.io/build-id"] == b
            && ValidLabelValue(labels["temporal.io/deployment-name"])
            && NameChars(labels["temporal.io/deployment-name"])
            && (NameChars(resourceName) ==> labels["temporal.io/deployment-name"] == resourceName)
  {
    assert |BUILD_ID_LABEL| != |TWD_NAME_LABEL|;
    CleanKeepsEnds(resourceName);
    CleanedNameChars(resourceName);
    if NameChars(resourceName) {
      ReplaceKeepsLegal(resourceName, NameChar);
    }
  }

  /** The pod template of a Deployment built from scratch. */
  function FreshTemplate(spec: DeploymentSpec, selector: map<string, string>, c: ConnectionSpec,
                         deploymentName: string, buildID: BuildID, h: Hashes): PodTemplate
  {
    PodTemplate(
      spec.template.labels + selector,
      spec.template.annotations[CONNECTION_HASH := ConnectionHash(c, h)][TEMPLATE_HASH := h.template(spec.template)],
      ControlledSpec(spec.template.spec, c, spec.temporalNamespace, deploymentName, buildID))
  }

  /** What a pod template is built to be: selected by its Deployment, marked with the hashes of what it
      was built from, and serving its workers. All else is the user's. */
  ghost predicate BuiltFor(t: PodTemplate, spec: DeploymentSpec, selector: map<string, string>, c: ConnectionSpec,
                           deploymentName: string, buildID: BuildID, h: Hashes)
  {
    var user := spec.template;
    && t.labels.Keys == user.labels.Keys + selector.Keys
    && (forall k :: k in selector ==> t.labels[k] == selector[k])
    && (forall k :: k in user.labels && k !in selector ==> t.labels[k] == user.labels[k])
    && t.annotations.Keys == user.annotations.Keys + {CONNECTION_HASH, TEMPLATE_HASH}
    && t.annotations[CONNECTION_HASH] == ConnectionHash(c, h)
    && t.annotations[TEMPLATE_HASH] == h.template(user)
    && (forall k :: k in user.annotations && k !in {CONNECTION_HASH, TEMPLATE_HASH} ==>
          t.annotations[k] == user.annotations[k])
    && ServesWorkers(t.spec, user.spec, c, spec.temporalNamespace, deploymentName, buildID)
  }

  lemma {:induction false} FreshIsBuiltFor(spec: DeploymentSpec, selector: map<string, string>, c: ConnectionSpec,
                                           deploymentName: string, buildID: BuildID, h: Hashes)
    ensures BuiltFor(FreshTemplate(spec, selector, c, deploymentName, buildID, h), spec, selector, c, deploymentName,
                     buildID, h)
  {
    assert |CONNECTION_HASH| != |TEMPLATE_HASH|;
    ControlledServesWorkers(spec.template.spec, c, spec.temporalNamespace, deploymentName, buildID);
  }

  /** NewDeploymentWithOwnerRef; the UID and the creation time are the API server's. */
  method NewDeployment(resourceName: string, spec: DeploymentSpec, deploymentName: string, buildID: BuildID,
                       c: ConnectionSpec, h: Hashes, uid: nat, now: Time)
    returns (d: Deployment)
    ensures fresh(d) && d.uid == uid && d.creationTimestamp == now && d.conditions == []
    ensures d.name == ComputeVersionedDeploymentName(resourceName, buildID)
    ensures d.labels == d.selector == SelectorLabels(resourceName, buildID)
    ensures d.replicas == Some(spec.replicas) && d.minReadySeconds == spec.minReadySeconds
    ensures d.template == FreshTemplate(spec, d.selector, c, deploymentName, buildID, h)
    ensures BuiltFor(d.template, spec, d.selector, c, deploymentName, buildID, h)
    ensures "temporal.io/build-id" in d.selector && d.selector["temporal.io/build-id"] == TruncateString(buildID, 63)
  {
    var selectorLabels := SelectorLabels(resourceName, buildID);
    var podLabels := spec.template.labels + selectorLabels;
    var podSpec := new PodSpecCopy(spec.template.spec);
    podSpec.ApplyControllerModifications(c, spec.temporalNamespace, deploymentName, buildID);
    var podAnnotations := spec.template.annotations[CONNECTION_HASH := ConnectionHash(c, h)];
    podAnnotations := podAnnotations[TEMPLATE_HASH := h.template(spec.template)];
    d := new Deployment(ComputeVersionedDeploymentName(resourceName, buildID), uid, now, selectorLabels,
                        Some(spec.replicas), spec.minReadySeconds,
                          PodTemplate(podLabels, podAnnotations, podSpec.Value()));
    FreshIsBuiltFor(spec, selectorLabels, c, deploymentName, buildID, h);
    assert |BUILD_ID_LABEL| != |TWD_NAME_LABEL|;
  }

  // Reading the cluster

  /** k8s.DeploymentState without the list that only logging uses. */
  datatype DeploymentState = DeploymentState(deployments: map<BuildID, Deployment>, refs: map<BuildID, ObjectReference>)
  {
    ghost predicate Valid() {
      && refs.Keys == deployments.Keys
      && (forall b :: b in deployments ==> refs[b] == deployments[b].Ref())
      && (forall b :: b in deployments
           ==> BUILD_ID_LABEL in deployments[b].labels && deployments[b].labels[BUILD_ID_LABEL] == b)
    }

    function View(): View
      requires refs.Keys >= deployments.Keys
      reads deployments.Values
    {
      map b | b in deployments :: DeploymentView(refs[b], HealthySince(deployments[b].conditions),
          deployments[b].replicas)
    }
  }

  /** What mapping and planning read of a Deployment. */
  datatype DeploymentView = DeploymentView(ref: ObjectReference, healthySince: Option<Time>, replicas: Option<nat>)

  type View = map<BuildID, DeploymentView>

  function HealthySince(conditions: seq<Condition>): Option<Time> {
    if conditions == [] then None
    else if conditions[0].available && conditions[0].isTrue then Some(conditions[0].lastTransition)
    else HealthySince(conditions[1..])
  }

  /** t is the transition of the first Available condition that is true, if there is one. */
  ghost predicate IsHealthySince(t: Option<Time>, conditions: seq<Condition>) {
    match t
    case None => forall i :: 0 <= i < |conditions| ==> !(conditions[i].available && conditions[i].isTrue)
    case Some(since) =>
      exists i :: 0 <= i < |conditions|
                  && conditions[i].available && conditions[i].isTrue && conditions[i].lastTransition == since
                  && forall j :: 0 <= j < i ==> !(conditions[j].available && conditions[j].isTrue)
  }

  lemma {:induction false} HealthySinceIs(conditions: seq<Condition>)
    ensures IsHealthySince(HealthySince(conditions), conditions)
  {
    if conditions != [] {
      var rest, t := conditions[1..], HealthySince(conditions);
      HealthySinceIs(rest);
      if !(conditions[0].available && conditions[0].isTrue) {
        assert forall i :: 0 < i < |conditions| ==> conditions[i] == rest[i - 1];
        if t.Some? {
          var i :| 0 <= i < |rest| && rest[i].available && rest[i].isTrue && rest[i].lastTransition == t.value
            && forall j :: 0 <= j < i ==> !(rest[j].available && rest[j].isTrue);
          assert conditions[i + 1] == rest[i];
        }
      } else {
        assert conditions[0].lastTransition == t.value;
      }
    }
  }

  /** IsDeploymentHealthy. */
  method IsDeploymentHealthy(d: Deployment) returns (healthySince: Option<Time>)
    ensures healthySince == HealthySince(d.conditions)
  {
    for i := 0 to |d.conditions|
      invariant HealthySince(d.conditions) == HealthySince(d.conditions[i..])
    {
      if d.conditions[i].available && d.conditions[i].isTrue {
        return Some(d.conditions[i].lastTransition);
      }
    }
    return None;
  }

  ghost predicate SortedByCreation(ds: seq<Deployment>) {
    forall i, j :: 0 <= i < j < |ds| ==> ds[i].creationTimestamp <= ds[j].creationTimestamp
  }

  /** Behind the last of the Deployments that are not newer than d. */
  function Position(ds: seq<Deployment>, d: Deployment): (p: nat)
    ensures p <= |ds|
    ensures SortedByCreation(ds) ==> forall i :: 0 <= i < p ==> ds[i].creationTimestamp <= d.creationTimestamp
    ensures forall i :: p <= i < |ds| ==> ds[i].creationTimestamp > d.creationTimestamp
  {
    if ds == [] || ds[|ds| - 1].creationTimestamp <= d.creationTimestamp then |ds| else Position(ds[..|ds| - 1], d)
  }

  function InsertAt(ds: seq<Deployment>, p: nat, d: Deployment): seq<Deployment>
    requires p <= |ds|
  {
    ds[..p] + [d] + ds[p..]
  }

  lemma {:induction false} InsertKeepsOrder(ds: seq<Deployment>, p: nat, d: Deployment)
    requires SortedByCreation(ds) && p <= |ds|
    requires forall i :: 0 <= i < p ==> ds[i].creationTimestamp <= d.creationTimestamp
    requires forall i :: p <= i < |ds| ==> d.creationTimestamp <= ds[i].creationTimestamp
    ensures SortedByCreation(InsertAt(ds, p, d))
  {
  }

  lemma {:induction false} InsertAdds(ds: seq<Deployment>, p: nat, d: Deployment)
    requires p <= |ds|
    ensures multiset(InsertAt(ds, p, d)) == multiset(ds + [d])
  {
    assert ds == ds[..p] + ds[p..];
  }

  /** sort.SliceStable by creation timestamp. */
  function SortByCreation(items: seq<Deployment>): seq<Deployment> {
    if items == [] then [] else
    var ds, d := SortByCreation(items[..|items| - 1]), items[|items| - 1];
    InsertAt(ds, Position(ds, d), d)
  }

  lemma {:induction false} SortSorts(items: seq<Deployment>)
    ensures SortedByCreation(SortByCreation(items)) && multiset(SortByCreation(items)) == multiset(items)
  {
    if items != [] {
      var front, d := items[..|items| - 1], items[|items| - 1];
      assert items == front + [d];
      SortSorts(front);
      var ds := SortByCreation(front);
      InsertKeepsOrder(ds, Position(ds, d), d);
      InsertAdds(ds, Position(ds, d), d);
    }
  }

  /** Those created at t, in order. */
  function CreatedAt(ds: seq<Deployment>, t: Time): seq<Deployment> {
    if ds == [] then [] else
    CreatedAt(ds[..|ds| - 1], t) + if ds[|ds| - 1].creationTimestamp == t then [ds[|ds| - 1]] else []
  }

  lemma {:induction false} CreatedAtJoins(a: seq<Deployment>, b: seq<Deployment>, t: Time)
    ensures CreatedAt(a + b, t) == CreatedAt(a, t) + CreatedAt(b, t)
  {
    if b == [] {
      assert a + b == a;
    } else {
      assert (a + b)[..|a + b| - 1] == a + b[..|b| - 1];
      CreatedAtJoins(a, b[..|b| - 1], t);
    }
  }

  lemma {:induction false} NoneCreatedAt(ds: seq<Deployment>, t: Time)
    requires forall i :: 0 <= i < |ds| ==> ds[i].creationTimestamp != t
    ensures CreatedAt(ds, t) == []
  {
    if ds != [] {
      NoneCreatedAt(ds[..|ds| - 1], t);
    }
  }

  /** Deployments of one creation time keep the order in which they were listed. */
  lemma {:induction false} SortIsStable(items: seq<Deployment>, t: Time)
    ensures CreatedAt(SortByCreation(items), t) == CreatedAt(items, t)
  {
    if items != [] {
      var front, d := items[..|items| - 1], items[|items| - 1];
      SortIsStable(front, t);
      InsertIsLastOfItsTime(SortByCreation(front), d, t);
    }
  }

  lemma {:induction false} LastOfItsTime(a: seq<Deployment>, d: Deployment, b: seq<Deployment>, t: Time)
    requires d.creationTimestamp == t ==> CreatedAt(b, t) == []
    ensures CreatedAt(a + ([d] + b), t) == CreatedAt(a + b, t) + if d.creationTimestamp == t then [d] else []
  {
    CreatedAtJoins(a, b, t);
    CreatedAtJoins(a, [d] + b, t);
    CreatedAtJoins([d], b, t);
    assert CreatedAt([d], t) == if d.creationTimestamp == t then [d] else [];
  }

  lemma {:induction false} NoneAfterPosition(ds: seq<Deployment>, d: Deployment)
    ensures CreatedAt(ds[Position(ds, d)..], d.creationTimestamp) == []
  {
    NoneCreatedAt(ds[Position(ds, d)..], d.creationTimestamp);
  }

  lemma {:induction false} InsertIsLastOfItsTime(ds: seq<Deployment>, d: Deployment, t: Time)
    ensures CreatedAt(InsertAt(ds, Position(ds, d), d), t) == CreatedAt(ds, t) + if d.creationTimestamp == t then [d]
            else []
  {
    var p := Position(ds, d);
    var a, b := ds[..p], ds[p..];
    NoneAfterPosition(ds, d);
    LastOfItsTime(a, d, b, t);
    assert ds == a + b && InsertAt(ds, p, d) == a + ([d] + b);
  }

  ghost predicate HasBuildID(d: Deployment, b: BuildID) {
    BUILD_ID_LABEL in d.labels && d.labels[BUILD_ID_LABEL] == b
  }

  /** d is the newest of the items that carry its build ID. */
  ghost predicate NewestOf(d: Deployment, b: BuildID, items: seq<Deployment>) {
    && d in items && HasBuildID(d, b)
    && forall e :: e in items && HasBuildID(e, b) ==> e.creationTimestamp <= d.creationTimestamp
  }

  ghost predicate ShowsDeployment(v: DeploymentView, d: Deployment)
    reads d
  {
    && v.ref == ObjectReference(d.name, d.uid) && v.replicas == d.replicas
    && IsHealthySince(v.healthySince, d.conditions)
  }

  /** The view has exactly the labelled build IDs, and of each the newest Deployment. */
  ghost predicate Sees(view: View, items: seq<Deployment>)
    reads items
  {
    && (forall b :: b in view <==> exists d :: d in items && HasBuildID(d, b))
    && (forall b :: b in view ==> exists d :: d in items && NewestOf(d, b, items) && ShowsDeployment(view[b], d))
  }

  function IndexByBuildID(ds: seq<Deployment>): map<BuildID, Deployment> {
    if ds == [] then map[] else
    var index := IndexByBuildID(ds[..|ds| - 1]);
    var d := ds[|ds| - 1];
    if BUILD_ID_LABEL in d.labels then index[d.labels[BUILD_ID_LABEL] := d] else index
  }

  lemma {:induction false} MembersOf(ds: seq<Deployment>)
    requires ds != []
    ensures forall d :: d in ds <==> d in ds[..|ds| - 1] || d == ds[|ds| - 1]
  {
    assert ds == ds[..|ds| - 1] + [ds[|ds| - 1]];
  }

  lemma {:induction false} LastIsNewest(ds: seq<Deployment>)
    requires SortedByCreation(ds) && ds != []
    ensures forall e :: e in ds ==> e.creationTimestamp <= ds[|ds| - 1].creationTimestamp
  {
    forall e | e in ds
      ensures e.creationTimestamp <= ds[|ds| - 1].creationTimestamp
    {
      var k :| 0 <= k < |ds| && ds[k] == e;
    }
  }

  lemma {:induction false} IndexHoldsTheNewest(ds: seq<Deployment>, b: BuildID)
    requires SortedByCreation(ds)
    ensures b in IndexByBuildID(ds) <==> exists d :: d in ds && HasBuildID(d, b)
    ensures b in IndexByBuildID(ds) ==> NewestOf(IndexByBuildID(ds)[b], b, ds)
  {
    if ds != [] {
      var front, last := ds[..|ds| - 1], ds[|ds| - 1];
      MembersOf(ds);
      IndexHoldsTheNewest(front, b);
      if HasBuildID(last, b) {
        LastIsNewest(ds);
        assert NewestOf(last, b, ds);
      } else if b in IndexByBuildID(front) {
        assert NewestOf(IndexByBuildID(front)[b], b, ds);
      }
    }
  }

  /** GetDeploymentState: every labelled build ID, with the newest Deployment that carries it. */
  method GetDeploymentState(items: seq<Deployment>) returns (state: DeploymentState)
    ensures state.Valid()
    ensures forall b :: b in state.deployments <==> exists d :: d in items && HasBuildID(d, b)
    ensures forall b :: b in state.deployments ==> NewestOf(state.deployments[b], b, items)
    ensures Sees(state.View(), items)
  {
    state := DeploymentState(map[], map[]);
    var sorted := SortByCreation(items);
    for i := 0 to |sorted|
      invariant state.Valid()
      invariant state.deployments == IndexByBuildID(sorted[..i])
    {
      var d := sorted[i];
      assert sorted[..i + 1][..i] == sorted[..i];
      if BUILD_ID_LABEL in d.labels {
        var b := d.labels[BUILD_ID_LABEL];
        state := DeploymentState(state.deployments[b := d], state.refs[b := d.Ref()]);
      }
    }
    assert sorted[..|sorted|] == sorted;
    SortSorts(items);
    forall d
      ensures d in items <==> d in sorted
    {
      assert d in multiset(items) <==> d in multiset(sorted);
    }
    forall b
      ensures b in state.deployments <==> exists d :: d in items && HasBuildID(d, b)
      ensures b in state.deployments ==> NewestOf(state.deployments[b], b, items)
    {
      IndexHoldsTheNewest(sorted, b);
    }
    ViewSees(state, items);
  }

  lemma {:induction false} ViewSees(state: DeploymentState, items: seq<Deployment>)
    requires state.Valid()
    requires forall b :: b in state.deployments <==> exists d :: d in items && HasBuildID(d, b)
    requires forall b :: b in state.deployments ==> NewestOf(state.deployments[b], b, items)
    ensures Sees(state.View(), items)
  {
    forall b | b in state.View()
      ensures ShowsDeployment(state.View()[b], state.deployments[b])
    {
      HealthySinceIs(state.deployments[b].conditions);
    }
  }
}
