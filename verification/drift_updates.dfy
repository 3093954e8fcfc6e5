/** In-place updates of existing Deployments (internal/planner/planner.go) and how they compare with
    building the same Deployment afresh. */
module DriftUpdates {
  import opened Api
  import opened PodTemplates
  import opened Kubernetes

  function Annotation(t: PodTemplate, key: string): string {
    if key in t.annotations then t.annotations[key] else ""
  }

  // Connection drift

  function PatchEnv(env: seq<EnvVar>, hostPort: string): seq<EnvVar> {
    seq(|env|, i requires 0 <= i < |env| => if env[i].name == ADDRESS then env[i].(value := hostPort) else env[i])
  }

  function PatchContainers(cs: seq<Container>, hostPort: string): seq<Container> {
    seq(|cs|, i requires 0 <= i < |cs| => cs[i].(env := PatchEnv(cs[i].env, hostPort)))
  }

  predicate IsTLSVolume(v: Volume) {
    v.name == TLS_VOLUME && v.secret.Some?
  }

  /** Points the first TLS secret volume at another secret. */
  function PatchVolumes(vs: seq<Volume>, secret: string): seq<Volume> {
    if vs == [] then []
    else if IsTLSVolume(vs[0]) then [vs[0].(secret := Some(secret))] + vs[1..]
    else [vs[0]] + PatchVolumes(vs[1..], secret)
  }

  /** The first secret volume of that name is the one, and the only one, that changes. */
  lemma {:induction false} PatchesFirstTLSVolume(vs: seq<Volume>, secret: string, k: nat)
    requires k < |vs|
    ensures |PatchVolumes(vs, secret)| == |vs|
    ensures PatchVolumes(vs, secret)[k]
            == if vs[k].name == "temporal-tls" && vs[k].secret.Some?
                  && (forall j :: 0 <= j < k ==> !(vs[j].name == "temporal-tls" && vs[j].secret.Some?))
               then Volume("temporal-tls", Some(secret), vs[k].rest) else vs[k]
  {
    if IsTLSVolume(vs[0]) {
      assert k > 0 ==> vs[0].name == "temporal-tls" && vs[0].secret.Some?;
    } else if k > 0 {
      PatchesFirstTLSVolume(vs[1..], secret, k - 1);
      assert forall j :: 0 < j < k ==> vs[j] == vs[1..][j - 1];
    } else if |vs| > 1 {
      PatchesFirstTLSVolume(vs[1..], secret, 0);
    }
  }

  function PatchedTemplate(t: PodTemplate, c: ConnectionSpec, h: Hashes): PodTemplate {
    PodTemplate(
      t.labels,
      t.annotations[CONNECTION_HASH := ConnectionHash(c, h)],
      PodSpec(PatchContainers(t.spec.containers, c.hostPort),
              if c.mutualTLSSecret.Some? then PatchVolumes(t.spec.volumes, c.mutualTLSSecret.value) else t.spec.volumes,
              t.spec.rest))
  }

  method PatchVolumesLoop(vs: seq<Volume>, secret: string) returns (r: seq<Volume>)
    ensures r == PatchVolumes(vs, secret)
  {
    r := vs;
    assert r[..0] + PatchVolumes(vs[0..], secret) == PatchVolumes(vs, secret);
    for i := 0 to |vs|
      invariant r == vs
      invariant vs[..i] + PatchVolumes(vs[i..], secret) == PatchVolumes(vs, secret)
    {
      if IsTLSVolume(vs[i]) {
        r := r[i := vs[i].(secret := Some(secret))];
        assert r == vs[..i] + ([vs[i].(secret := Some(secret))] + vs[i..][1..]);
        return;
      }
      assert vs[i..][1..] == vs[i + 1..];
      assert vs[..i] + ([vs[i]] + PatchVolumes(vs[i + 1..], secret)) == vs[..i + 1] + PatchVolumes(vs[i + 1..], secret);
    }
    assert vs[|vs|..] == [] && vs[..|vs|] + [] == vs;
  }

  method PatchEnvLoop(env: seq<EnvVar>, hostPort: string) returns (r: seq<EnvVar>)
    ensures r == PatchEnv(env, hostPort)
  {
    r := env;
    for j := 0 to |env|
      invariant |r| == |env|
      invariant forall k :: 0 <= k < j ==> r[k] == PatchEnv(env, hostPort)[k]
      invariant forall k :: j <= k < |env| ==> r[k] == env[k]
    {
      if env[j].name == ADDRESS {
        r := r[j := env[j].(value := hostPort)];
      }
    }
  }

  /** updateDeploymentWithConnection. */
  method UpdateDeploymentWithConnection(d: Deployment, c: ConnectionSpec, h: Hashes)
    modifies d`template
    ensures d.template == PatchedTemplate(old(d.template), c, h)
  {
    ghost var was := d.template;
    d.template := d.template.(annotations := d.template.annotations[CONNECTION_HASH := ConnectionHash(c, h)]);
    if c.mutualTLSSecret.Some? {
      var volumes := PatchVolumesLoop(d.template.spec.volumes, c.mutualTLSSecret.value);
      d.template := d.template.(spec := d.template.spec.(volumes := volumes));
    }
    ghost var patched := d.template;
    var n := |d.template.spec.containers|;
    for i := 0 to n
      invariant |d.template.spec.containers| == n
      invariant d.template == patched.(spec := patched.spec.(containers := d.template.spec.containers))
      invariant forall k :: 0 <= k < i ==>
                  d.template.spec.containers[k] == PatchContainers(was.spec.containers, c.hostPort)[k]
      invariant forall k :: i <= k < n ==> d.template.spec.containers[k] == was.spec.containers[k]
    {
      var x := d.template.spec.containers[i];
      var env := PatchEnvLoop(x.env, c.hostPort);
      var containers := d.template.spec.containers[i := x.(env := env)];
      d.template := d.template.(spec := d.template.spec.(containers := containers));
    }
    assert d.template.spec.containers == PatchContainers(was.spec.containers, c.hostPort);
  }

  predicate ConnectionDrifted(t: PodTemplate, c: ConnectionSpec, h: Hashes) {
    ConnectionHash(c, h) != Annotation(t, CONNECTION_HASH)
  }

  /** checkAndUpdateDeploymentConnectionSpec. */
  method CheckConnection(b: BuildID, k8s: DeploymentState, c: ConnectionSpec, h: Hashes) returns (updated: Deployment?)
    requires k8s.Valid()
    modifies k8s.deployments.Values
    ensures updated == null ==> forall d :: d in k8s.deployments.Values ==> unchanged(d)
    ensures updated == null <==> b !in k8s.deployments || !ConnectionDrifted(old(k8s.deployments[b].template), c, h)
    ensures updated != null ==>
              && updated == k8s.deployments[b]
              && updated.template == PatchedTemplate(old(updated.template), c, h)
              && unchanged(updated`replicas) && unchanged(updated`minReadySeconds)
              && forall d :: d in k8s.deployments.Values && d != updated ==> unchanged(d)
  {
    if b !in k8s.deployments {
      return null;
    }
    var existing := k8s.deployments[b];
    if ConnectionHash(c, h) != Annotation(existing.template, CONNECTION_HASH) {
      UpdateDeploymentWithConnection(existing, c, h);
      return existing;
    }
    return null;
  }

  // Pod template drift

  function FirstNamed(env: seq<EnvVar>, name: string): Option<string> {
    if env == [] then None else if env[0].name == name then Some(env[0].value) else FirstNamed(env[1..], name)
  }

  /** What a worker finds is what comes first, unless the user has put something before it. */
  lemma {:induction false} FoundIsFirst(env: seq<EnvVar>, user: seq<EnvVar>, name: string, value: string,
                                        valueFrom: Option<SecretKey>)
    requires Finds(env, user, name, value, valueFrom) && forall i :: 0 <= i < |user| ==> user[i].name != name
    ensures FirstNamed(env, name) == Some(value)
  {
    if env[0].name != name {
      assert EnvVar(name, value, valueFrom) in env[1..];
      assert forall i :: 0 <= i < |env[1..]| ==> env[1..][i] == env[i + 1];
      FoundIsFirst(env[1..], user, name, value, valueFrom);
    }
  }

  /** The worker deployment name as read back from the containers: per container the first variable
      of that name, until one is not empty. */
  function RecoveredName(cs: seq<Container>): string {
    if cs == [] then "" else
    var first := FirstNamed(cs[0].env, DEPLOYMENT_NAME);
    if first.Some? && first.value != "" then first.value else RecoveredName(cs[1..])
  }

  method FindDeploymentName(cs: seq<Container>) returns (name: string)
    ensures name == RecoveredName(cs)
  {
    name := "";
    for i := 0 to |cs|
      invariant name == "" && RecoveredName(cs) == RecoveredName(cs[i..])
    {
      var env := cs[i].env;
      assert cs[i..][1..] == cs[i + 1..];
      var j := 0;
      while j < |env|
        invariant 0 <= j <= |env| && name == ""
        invariant FirstNamed(env, DEPLOYMENT_NAME) == FirstNamed(env[j..], DEPLOYMENT_NAME)
      {
        if env[j].name == DEPLOYMENT_NAME {
          name := env[j].value;
          break;
        }
        assert env[j..][1..] == env[j + 1..];
        j := j + 1;
      }
      if name != "" {
        return;
      }
    }
  }

  /** updateDeploymentWithPodTemplateSpec: rebuilds the template, with the build ID and the worker
      deployment name recovered from the Deployment itself. */
  method UpdateDeploymentWithPodTemplateSpec(d: Deployment, spec: DeploymentSpec, c: ConnectionSpec, h: Hashes)
    modifies d
    ensures d.template == RebuiltTemplate(old(d.template), d.labels, d.selector, spec, c, h)
    ensures BuiltFor(d.template, spec, d.selector, c, RecoveredName(old(d.template.spec.containers)),
                     BuildIDLabel(d.labels), h)
    ensures d.replicas == Some(spec.replicas) && d.minReadySeconds == spec.minReadySeconds
  {
    var podSpec := new PodSpecCopy(spec.template.spec);
    var buildID := if BUILD_ID_LABEL in d.labels then d.labels[BUILD_ID_LABEL] else "";
    var deploymentName := FindDeploymentName(d.template.spec.containers);
    podSpec.ApplyControllerModifications(c, spec.temporalNamespace, deploymentName, buildID);
    var podAnnotations := spec.template.annotations[CONNECTION_HASH := ConnectionHash(c, h)];
    podAnnotations := podAnnotations[TEMPLATE_HASH := h.template(spec.template)];
    var podLabels := spec.template.labels + d.selector;
    d.template := PodTemplate(podLabels, podAnnotations, podSpec.Value());
    d.replicas := Some(spec.replicas);
    d.minReadySeconds := spec.minReadySeconds;
    FreshIsBuiltFor(spec, d.selector, c, deploymentName, buildID, h);
  }

  function BuildIDLabel(labels: map<string, string>): BuildID {
    if BUILD_ID_LABEL in labels then labels[BUILD_ID_LABEL] else ""
  }

  function RebuiltTemplate(t: PodTemplate, labels: map<string, string>, selector: map<string, string>,
                           spec: DeploymentSpec, c: ConnectionSpec, h: Hashes): PodTemplate
  {
    FreshTemplate(spec, selector, c, RecoveredName(t.spec.containers), BuildIDLabel(labels), h)
  }

  predicate TemplateDrifted(t: PodTemplate, spec: DeploymentSpec, h: Hashes) {
    spec.customBuildID != "" && Annotation(t, TEMPLATE_HASH) != ""
      && Annotation(t, TEMPLATE_HASH) != h.template(spec.template)
  }

  /** checkAndUpdateDeploymentPodTemplateSpec. */
  method CheckPodTemplate(b: BuildID, k8s: DeploymentState, spec: DeploymentSpec, c: ConnectionSpec, h: Hashes)
    returns (updated: Deployment?)
    requires k8s.Valid()
    modifies k8s.deployments.Values
    ensures updated == null ==> forall d :: d in k8s.deployments.Values ==> unchanged(d)
    ensures updated == null <==> b !in k8s.deployments || !TemplateDrifted(old(k8s.deployments[b].template), spec, h)
    ensures updated != null ==>
              && updated == k8s.deployments[b]
              && updated.template == RebuiltTemplate(old(updated.template), updated.labels, updated.selector, spec, c,
                   h)
              && updated.replicas == Some(spec.replicas) && updated.minReadySeconds == spec.minReadySeconds
              && forall d :: d in k8s.deployments.Values && d != updated ==> unchanged(d)
  {
    if b !in k8s.deployments {
      return null;
    }
    var existing := k8s.deployments[b];
    if spec.customBuildID == "" {
      return null;
    }
    var storedHash := Annotation(existing.template, TEMPLATE_HASH);
    if storedHash == "" {
      return null;
    }
    var currentHash := h.template(spec.template);
    if storedHash == currentHash {
      return null;
    }
    UpdateDeploymentWithPodTemplateSpec(existing, spec, c, h);
    return existing;
  }

  // All updates of a plan

  /** The mutable part of a Deployment. */
  datatype Snapshot = Snapshot(template: PodTemplate, replicas: Option<nat>, minReadySeconds: int)

  function Snap(d: Deployment): Snapshot
    reads d
  {
    Snapshot(d.template, d.replicas, d.minReadySeconds)
  }

  function Snaps(k8s: DeploymentState): map<BuildID, Snapshot>
    reads k8s.deployments.Values
  {
    map b | b in k8s.deployments :: Snap(k8s.deployments[b])
  }

  /** What the updates of one plan are about. */
  datatype Desired = Desired(target: BuildID, others: set<BuildID>, spec: DeploymentSpec, connection: ConnectionSpec,
      hashes: Hashes)

  function DesiredBy(s: Status, spec: DeploymentSpec, c: ConnectionSpec, h: Hashes): Desired {
    Desired(s.target.buildID,
            (if s.current.Some? && s.current.value.buildID != "" then {s.current.value.buildID} else {})
            + set v | v in s.deprecated :: v.buildID,
            spec, c, h)
  }

  predicate Rebuilds(b: BuildID, t: PodTemplate, w: Desired) {
    b != "" && b == w.target && TemplateDrifted(t, w.spec, w.hashes)
  }

  /** The target is checked for both kinds of drift, every other version for connection drift. */
  predicate Drifts(b: BuildID, t: PodTemplate, w: Desired) {
    Rebuilds(b, t, w) || (((b != "" && b == w.target) || b in w.others) && ConnectionDrifted(t, w.connection, w.hashes))
  }

  function Updated(d: Deployment, b: BuildID, was: Snapshot, w: Desired): Snapshot {
    if Rebuilds(b, was.template, w) then
      Snapshot(RebuiltTemplate(was.template, d.labels, d.selector, w.spec, w.connection, w.hashes),
          Some(w.spec.replicas), w.spec.minReadySeconds)
    else
      was.(template := PatchedTemplate(was.template, w.connection, w.hashes))
  }

  /** updates lists the Deployments of the builds, each build once. */
  ghost predicate Lists(updates: seq<Deployment>, builds: seq<BuildID>, k8s: DeploymentState) {
    && |updates| == |builds|
    && (forall i :: 0 <= i < |builds| ==> builds[i] in k8s.deployments && updates[i] == k8s.deployments[builds[i]])
    && (forall i, j :: 0 <= i < j < |builds| ==> builds[i] != builds[j])
  }

  /** The Deployments of the builds have been updated, the others are as they were. */
  ghost predicate UpdatedOnly(builds: seq<BuildID>, k8s: DeploymentState, was: map<BuildID, Snapshot>, w: Desired)
    reads k8s.deployments.Values
  {
    && was.Keys == k8s.deployments.Keys
    && forall b :: b in k8s.deployments ==>
         Snap(k8s.deployments[b]) == if b in builds then Updated(k8s.deployments[b], b, was[b], w) else was[b]
  }

  /** builds are those to rebuild, and among the build IDs seen those with connection drift. */
  ghost predicate Due(builds: seq<BuildID>, seen: set<BuildID>, was: map<BuildID, Snapshot>, w: Desired) {
    forall b :: b in builds <==>
      b in was && (Rebuilds(b, was[b].template, w)
          || (b in seen && ConnectionDrifted(was[b].template, w.connection, w.hashes)))
  }

  lemma {:induction false} ListsGrow(updates: seq<Deployment>, builds: seq<BuildID>, k8s: DeploymentState, b: BuildID)
    requires Lists(updates, builds, k8s) && b in k8s.deployments && b !in builds
    ensures Lists(updates + [k8s.deployments[b]], builds + [b], k8s)
  {
  }

  lemma {:induction false} DueGrows(builds: seq<BuildID>, seen: set<BuildID>, b: BuildID, was: map<BuildID, Snapshot>,
                                    w: Desired)
    requires Due(builds, seen, was, w) && b in was && ConnectionDrifted(was[b].template, w.connection, w.hashes)
    ensures Due(builds + [b], seen + {b}, was, w)
  {
  }

  /** Updates b's Deployment for connection drift unless it has been updated already. */
  method CheckConnectionOnce(b: BuildID, k8s: DeploymentState, w: Desired, updates: seq<Deployment>, done: set<BuildID>,
                             ghost builds: seq<BuildID>, ghost seen: set<BuildID>, ghost was: map<BuildID, Snapshot>)
    returns (updates': seq<Deployment>, done': set<BuildID>, ghost builds': seq<BuildID>)
    requires k8s.Valid() && Lists(updates, builds, k8s) && UpdatedOnly(builds, k8s, was, w)
    requires (forall a :: a in done <==> a in builds) && Due(builds, seen, was, w)
    modifies k8s.deployments.Values
    ensures Lists(updates', builds', k8s) && UpdatedOnly(builds', k8s, was, w)
    ensures (forall a :: a in done' <==> a in builds') && Due(builds', seen + {b}, was, w)
  {
    updates', done', builds' := updates, done, builds;
    if b !in done {
      var updated := CheckAndCompare(b, k8s, w);
      if updated != null {
        updates', done', builds' := updates + [updated], done + {b}, builds + [b];
        DueGrows(builds, seen, b, was, w);
        ListsGrow(updates, builds, k8s, b);
      }
    }
  }

  /** What checking b does to every Deployment. */
  method CheckAndCompare(b: BuildID, k8s: DeploymentState, w: Desired) returns (updated: Deployment?)
    requires k8s.Valid()
    modifies k8s.deployments.Values
    ensures updated == null <==>
            b !in k8s.deployments || !ConnectionDrifted(old(k8s.deployments[b].template), w.connection, w.hashes)
    ensures updated != null ==>
              && updated == k8s.deployments[b]
              && Snap(updated)
                 == old(Snap(k8s.deployments[b])).(template := PatchedTemplate(old(k8s.deployments[b].template),
                     w.connection, w.hashes))
    ensures forall a :: a in k8s.deployments && (updated == null || a != b) ==>
              Snap(k8s.deployments[a]) == old(Snap(k8s.deployments[a]))
  {
    updated := CheckConnection(b, k8s, w.connection, w.hashes);
    forall a | a in k8s.deployments && (updated == null || a != b)
      ensures Snap(k8s.deployments[a]) == old(Snap(k8s.deployments[a]))
    {
      assert k8s.deployments[a] in k8s.deployments.Values && k8s.deployments[a] != updated;
    }
  }

  /** The same for pod template drift, as the first update of a plan. */
  method CheckTemplateFirst(k8s: DeploymentState, w: Desired, ghost was: map<BuildID, Snapshot>)
    returns (updates: seq<Deployment>, done: set<BuildID>, ghost builds: seq<BuildID>)
    requires k8s.Valid() && was == Snaps(k8s)
    modifies k8s.deployments.Values
    ensures Lists(updates, builds, k8s) && UpdatedOnly(builds, k8s, was, w)
    ensures (forall a :: a in done <==> a in builds) && Due(builds, {}, was, w)
  {
    updates, done, builds := [], {}, [];
    if w.target != "" {
      var d := CheckPodTemplate(w.target, k8s, w.spec, w.connection, w.hashes);
      if d != null {
        updates, done, builds := [d], {w.target}, [w.target];
      }
      forall a | a in k8s.deployments
        ensures Snap(k8s.deployments[a]) == if a in builds then Updated(k8s.deployments[a], a, was[a], w) else was[a]
      {
        assert k8s.deployments[a] in k8s.deployments.Values;
        assert d != null && a != w.target ==> k8s.deployments[a] != d;
      }
    }
  }

  /** The loop over the deprecated versions. */
  method CheckDeprecated(list: seq<DeprecatedVersion>, k8s: DeploymentState, w: Desired, updates: seq<Deployment>,
                         done: set<BuildID>,
                         ghost builds: seq<BuildID>, ghost seen: set<BuildID>, ghost was: map<BuildID, Snapshot>)
    returns (updates': seq<Deployment>, ghost builds': seq<BuildID>)
    requires k8s.Valid() && Lists(updates, builds, k8s) && UpdatedOnly(builds, k8s, was, w)
    requires (forall a :: a in done <==> a in builds) && Due(builds, seen, was, w)
    modifies k8s.deployments.Values
    ensures Lists(updates', builds', k8s) && UpdatedOnly(builds', k8s, was, w)
    ensures Due(builds', seen + (set v | v in list :: v.buildID), was, w)
  {
    updates', builds' := updates, builds;
    var done' := done;
    ghost var seen' := seen;
    for i := 0 to |list|
      invariant Lists(updates', builds', k8s) && UpdatedOnly(builds', k8s, was, w)
      invariant (forall a :: a in done' <==> a in builds') && Due(builds', seen', was, w)
      invariant seen' == seen + set v | v in list[..i] :: v.buildID
    {
      updates', done', builds' := CheckConnectionOnce(list[i].buildID, k8s, w, updates', done', builds', seen', was);
      seen' := seen' + {list[i].buildID};
      assert list[..i + 1] == list[..i] + [list[i]];
    }
    assert list[..|list|] == list;
  }

  /** getUpdateDeployments: updates exactly the drifted Deployments, each once, and touches no other. */
  method GetUpdateDeployments(k8s: DeploymentState, status: Status, spec: DeploymentSpec, c: ConnectionSpec, h: Hashes)
    returns (updates: seq<Deployment>, ghost builds: seq<BuildID>)
    requires k8s.Valid()
    modifies k8s.deployments.Values
    ensures Lists(updates, builds, k8s)
    ensures forall b :: b in builds <==>
              b in k8s.deployments && Drifts(b, old(Snaps(k8s))[b].template, DesiredBy(status, spec, c, h))
    ensures UpdatedOnly(builds, k8s, old(Snaps(k8s)), DesiredBy(status, spec, c, h))
  {
    ghost var was := Snaps(k8s);
    var w := DesiredBy(status, spec, c, h);
    var done: set<BuildID>;
    updates, done, builds := CheckTemplateFirst(k8s, w, was);
    ghost var seen: set<BuildID> := {};
    if status.target.buildID != "" {
      updates, done, builds := CheckConnectionOnce(status.target.buildID, k8s, w, updates, done, builds, seen, was);
      seen := seen + {status.target.buildID};
    }
    if status.current.Some? && status.current.value.buildID != "" {
      updates, done, builds := CheckConnectionOnce(status.current.value.buildID, k8s, w, updates, done, builds, seen,
          was);
      seen := seen + {status.current.value.buildID};
    }
    updates, builds := CheckDeprecated(status.deprecated, k8s, w, updates, done, builds, seen, was);
    DueIsDrifted(builds, seen + (set v | v in status.deprecated :: v.buildID), was, w);
  }

  lemma {:induction false} DueIsDrifted(builds: seq<BuildID>, seen: set<BuildID>, was: map<BuildID, Snapshot>,
                                        w: Desired)
    requires Due(builds, seen, was, w)
    requires seen == w.others + if w.target != "" then {w.target} else {}
    ensures forall b :: b in builds <==> b in was && Drifts(b, was[b].template, w)
  {
  }

  lemma {:induction false} UpdatedDoesNotDrift(d: Deployment, b: BuildID, was: Snapshot, w: Desired)
    ensures !Drifts(b, Updated(d, b, was, w).template, w)
  {
    assert |CONNECTION_HASH| != |TEMPLATE_HASH|;
  }

  lemma {:induction false} FirstIsMember(builds: seq<BuildID>)
    ensures builds == [] || builds[0] in builds
  {
  }

  /** Updating is a fixpoint: asked again about what it left behind, the planner finds nothing. */
  method UpdateTwice(k8s: DeploymentState, status: Status, spec: DeploymentSpec, c: ConnectionSpec, h: Hashes)
    returns (first: seq<Deployment>, second: seq<Deployment>)
    requires k8s.Valid()
    modifies k8s.deployments.Values
    ensures second == []
  {
    ghost var was := Snaps(k8s);
    ghost var w := DesiredBy(status, spec, c, h);
    ghost var builds;
    first, builds := GetUpdateDeployments(k8s, status, spec, c, h);
    forall b | b in k8s.deployments
      ensures !Drifts(b, Snaps(k8s)[b].template, w)
    {
      UpdatedDoesNotDrift(k8s.deployments[b], b, was[b], w);
    }
    second, builds := GetUpdateDeployments(k8s, status, spec, c, h);
    FirstIsMember(builds);
  }
}
