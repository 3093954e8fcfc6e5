/** When an updated Deployment is the Deployment one would build today. */
module FreshBuild {
  import opened Api
  import opened PodTemplates
  import opened Kubernetes
  import opened BuildIds
  import opened DriftUpdates

  // Rebuilding the pod template

  /** The name found again in containers built for deploymentName: a user's own variable comes first
      in its container, and an empty one only hides the controller's. */
  function NameSeen(user: seq<Container>, deploymentName: string): string {
    if user == [] then "" else
    var own := FirstNamed(user[0].env, DEPLOYMENT_NAME);
    var first := if own.Some? then own.value else deploymentName;
    if first != "" then first else NameSeen(user[1..], deploymentName)
  }

  lemma {:induction false} FirstNamedInPrefix(a: seq<EnvVar>, b: seq<EnvVar>, name: string)
    ensures FirstNamed(a + b, name) == if FirstNamed(a, name).Some? then FirstNamed(a, name) else FirstNamed(b, name)
  {
    if a == [] {
      assert a + b == b;
    } else {
      assert (a + b)[1..] == a[1..] + b;
      FirstNamedInPrefix(a[1..], b, name);
    }
  }

  lemma {:induction false} IdentityNamesDeployment(c: ConnectionSpec, namespace: string, deploymentName: string,
                                                   b: BuildID)
    ensures FirstNamed(IdentityEnv(c, namespace, deploymentName, b), DEPLOYMENT_NAME) == Some(deploymentName)
  {
    var env := IdentityEnv(c, namespace, deploymentName, b);
    assert |ADDRESS| != |DEPLOYMENT_NAME| && |"TEMPORAL_NAMESPACE"| != |DEPLOYMENT_NAME|;
    assert env[1..][0] == env[1] && env[1..][1..] == env[2..];
    assert FirstNamed(env[2..], DEPLOYMENT_NAME) == Some(deploymentName);
  }

  lemma {:induction false} RecoveredIsSeen(s: PodSpec, c: ConnectionSpec, namespace: string, deploymentName: string,
                                           b: BuildID)
    ensures RecoveredName(ControlledSpec(s, c, namespace, deploymentName, b).containers)
            == NameSeen(s.containers, deploymentName)
    decreases |s.containers|
  {
    var built := ControlledSpec(s, c, namespace, deploymentName, b);
    if s.containers != [] {
      var rest := s.(containers := s.containers[1..]);
      assert built.containers[1..] == ControlledSpec(rest, c, namespace, deploymentName, b).containers;
      RecoveredIsSeen(rest, c, namespace, deploymentName, b);
      var user := s.containers[0].env;
      var identity := IdentityEnv(c, namespace, deploymentName, b);
      IdentityNamesDeployment(c, namespace, deploymentName, b);
      FirstNamedInPrefix(identity, AuthEnv(c), DEPLOYMENT_NAME);
      FirstNamedInPrefix(user, identity + AuthEnv(c), DEPLOYMENT_NAME);
      assert built.containers[0].env == user + (identity + AuthEnv(c));
    }
  }

  /** A pod template drift update gives the freshly built template exactly when the name it reads back
      is the right one, or the new template has no container to put it in. */
  lemma {:induction false} RebuildIsFreshIff(resourceName: string, deploymentName: string, b: BuildID, h: Hashes,
                            spec0: DeploymentSpec, c0: ConnectionSpec, spec1: DeploymentSpec, c1: ConnectionSpec)
    requires |b| <= 63
    ensures var labels := SelectorLabels(resourceName, b);
            RebuiltTemplate(FreshTemplate(spec0, labels, c0, deploymentName, b, h), labels, labels, spec1, c1, h)
            == FreshTemplate(spec1, labels, c1, deploymentName, b, h)
            <==> spec1.template.spec.containers == []
                 || NameSeen(spec0.template.spec.containers, deploymentName) == deploymentName
  {
    var labels := SelectorLabels(resourceName, b);
    var name := NameSeen(spec0.template.spec.containers, deploymentName);
    RecoveredIsSeen(spec0.template.spec, c0, spec0.temporalNamespace, deploymentName, b);
    assert |BUILD_ID_LABEL| != |TWD_NAME_LABEL|;
    assert labels[BUILD_ID_LABEL] == b;
    var built := ControlledSpec(spec1.template.spec, c1, spec1.temporalNamespace, name, b);
    var wanted := ControlledSpec(spec1.template.spec, c1, spec1.temporalNamespace, deploymentName, b);
    if spec1.template.spec.containers == [] {
      assert built.containers == wanted.containers;
    } else if name != deploymentName {
      var n := |spec1.template.spec.containers[0].env| + 2;
      assert built.containers[0].env[n].value == name;
      assert wanted.containers[0].env[n].value == deploymentName;
    }
  }

  /** No user variable takes the controller's name, so the name is read back. */
  lemma {:induction false} NameIsSeen(user: seq<Container>, deploymentName: string)
    requires |user| > 0 && deploymentName != ""
    requires forall j :: 0 <= j < |user[0].env| ==> user[0].env[j].name != DEPLOYMENT_NAME
    ensures NameSeen(user, deploymentName) == deploymentName
  {
    NoneNamed(user[0].env, DEPLOYMENT_NAME);
  }

  lemma {:induction false} NoneNamed(env: seq<EnvVar>, name: string)
    requires forall j :: 0 <= j < |env| ==> env[j].name != name
    ensures FirstNamed(env, name).None?
  {
    if env != [] {
      NoneNamed(env[1..], name);
    }
  }

  /** Build a Deployment, update it in place to a new spec and connection, and build one afresh: the
      two agree on everything the update may touch, and both serve the workers of the new spec. */
  method RebuildMatchesFresh(resourceName: string, namespace: string, b: BuildID, h: Hashes, uid: nat, now: Time,
                             spec0: DeploymentSpec, c0: ConnectionSpec, spec1: DeploymentSpec, c1: ConnectionSpec)
    returns (updated: Deployment, anew: Deployment)
    requires |b| <= 63 && |spec0.template.spec.containers| > 0
    requires forall j :: 0 <= j < |spec0.template.spec.containers[0].env| ==>
               spec0.template.spec.containers[0].env[j].name != DEPLOYMENT_NAME
    ensures Snap(updated) == Snap(anew)
    ensures updated.labels == anew.labels && updated.selector == anew.selector
    ensures var deploymentName := ComputeWorkerDeploymentName(namespace, resourceName);
            && BuiltFor(anew.template, spec1, anew.selector, c1, deploymentName, b, h)
            && BuiltFor(updated.template, spec1, updated.selector, c1, deploymentName, b, h)
  {
    var deploymentName := ComputeWorkerDeploymentName(namespace, resourceName);
    updated := NewDeployment(resourceName, spec0, deploymentName, b, c0, h, uid, now);
    UpdateDeploymentWithPodTemplateSpec(updated, spec1, c1, h);
    anew := NewDeployment(resourceName, spec1, deploymentName, b, c1, h, uid, now);
    RebuildIsFreshIff(resourceName, deploymentName, b, h, spec0, c0, spec1, c1);
    NameIsSeen(spec0.template.spec.containers, deploymentName);
  }

  // Patching the connection

  /** The credentials a fresh build would put in are the ones already there: same mode, and for API
      keys, which the patch never touches, the same key. */
  predicate SameCredentials(c0: ConnectionSpec, c1: ConnectionSpec) {
    Mode(c0) == Mode(c1) && (Mode(c1).APIKey? ==> c0.apiKeySecret == c1.apiKeySecret)
  }

  /** Every address variable of the user's own already holds the new address; the patch overwrites them. */
  ghost predicate UserAddressesAre(cs: seq<Container>, hostPort: string) {
    forall i :: 0 <= i < |cs| ==> PatchEnv(cs[i].env, hostPort) == cs[i].env
  }

  lemma {:induction false} PatchedControlledEnv(user: seq<EnvVar>, c0: ConnectionSpec, c1: ConnectionSpec,
                               namespace: string, deploymentName: string, b: BuildID)
    ensures PatchEnv(user + IdentityEnv(c0, namespace, deploymentName, b) + AuthEnv(c0), c1.hostPort)
            == PatchEnv(user, c1.hostPort) + IdentityEnv(c1, namespace, deploymentName, b) + AuthEnv(c0)
  {
    assert |"TEMPORAL_NAMESPACE"| != |ADDRESS| && |DEPLOYMENT_NAME| != |ADDRESS|
      && |"TEMPORAL_WORKER_BUILD_ID"| != |ADDRESS|;
    assert |"TEMPORAL_TLS"| != |ADDRESS| && |"TEMPORAL_TLS_CLIENT_KEY_PATH"| != |ADDRESS|
      && |"TEMPORAL_TLS_CLIENT_CERT_PATH"| != |ADDRESS|;
    assert "TEMPORAL_API_KEY"[10] != ADDRESS[10];
    assert PatchEnv(IdentityEnv(c0, namespace, deploymentName, b), c1.hostPort)
      == IdentityEnv(c1, namespace, deploymentName, b);
    assert PatchEnv(AuthEnv(c0), c1.hostPort) == AuthEnv(c0);
  }

  lemma {:induction false} PatchReachesLastVolume(user: seq<Volume>, tls: Volume, secret: string)
    requires IsTLSVolume(tls) && forall i :: 0 <= i < |user| ==> !IsTLSVolume(user[i])
    ensures PatchVolumes(user + [tls], secret) == user + [tls.(secret := Some(secret))]
  {
    if user == [] {
      assert user + [tls] == [tls];
    } else {
      assert (user + [tls])[1..] == user[1..] + [tls];
      PatchReachesLastVolume(user[1..], tls, secret);
    }
  }

  lemma {:induction false} SplitEqual<X>(a: seq<X>, b: seq<X>, m: seq<X>, x: seq<X>, y: seq<X>)
    requires |a| == |b|
    ensures a + m + x == b + m + y <==> a == b && x == y
  {
    if a + m + x == b + m + y {
      assert a == (a + m + x)[..|a|] == (b + m + y)[..|a|] == b;
      assert x == (a + m + x)[|a| + |m|..] == (b + m + y)[|a| + |m|..] == y;
    }
  }

  lemma {:induction false} PatchedContainerIff(x: Container, c0: ConnectionSpec, c1: ConnectionSpec,
                              namespace: string, deploymentName: string, b: BuildID)
    ensures var built := ControlledContainer(x, c0, namespace, deploymentName, b);
            built.(env := PatchEnv(built.env, c1.hostPort)) == ControlledContainer(x, c1, namespace, deploymentName, b)
            <==> SameCredentials(c0, c1) && PatchEnv(x.env, c1.hostPort) == x.env
  {
    PatchedControlledEnv(x.env, c0, c1, namespace, deploymentName, b);
    SplitEqual(PatchEnv(x.env, c1.hostPort), x.env, IdentityEnv(c1, namespace, deploymentName, b), AuthEnv(c0),
        AuthEnv(c1));
    assert AuthEnv(c0) == AuthEnv(c1) <==> SameCredentials(c0, c1) by {
      if Mode(c0).APIKey? && Mode(c1).APIKey? {
        assert AuthEnv(c0)[0].valueFrom == c0.apiKeySecret && AuthEnv(c1)[0].valueFrom == c1.apiKeySecret;
      } else {
        assert |AuthEnv(c0)| == |AuthEnv(c1)| <==> Mode(c0) == Mode(c1);
      }
    }
  }

  /** The in-place connection update gives the freshly built template exactly when the auth mode, and
      an API key, are unchanged and no address variable of the user's own holds anything else.
      (Kubernetes refuses two volumes of one name, so a template has no TLS volume of its own.) */
  lemma {:induction false} PatchIsFreshIff(spec: DeploymentSpec, selector: map<string, string>, c0: ConnectionSpec,
                                           c1: ConnectionSpec,
                          deploymentName: string, b: BuildID, h: Hashes)
    requires |spec.template.spec.containers| > 0
    requires forall i :: 0 <= i < |spec.template.spec.volumes| ==> !IsTLSVolume(spec.template.spec.volumes[i])
    ensures PatchedTemplate(FreshTemplate(spec, selector, c0, deploymentName, b, h), c1, h)
            == FreshTemplate(spec, selector, c1, deploymentName, b, h)
            <==> SameCredentials(c0, c1) && UserAddressesAre(spec.template.spec.containers, c1.hostPort)
  {
    var patched := PatchedTemplate(FreshTemplate(spec, selector, c0, deploymentName, b, h), c1, h);
    var anew := FreshTemplate(spec, selector, c1, deploymentName, b, h);
    assert |CONNECTION_HASH| != |TEMPLATE_HASH|;
    assert patched.annotations == anew.annotations;
    PatchedSpecIff(spec.template.spec, c0, c1, spec.temporalNamespace, deploymentName, b);
  }

  /** The pod spec part. */
  function PatchedSpec(s: PodSpec, c: ConnectionSpec): PodSpec {
    PodSpec(PatchContainers(s.containers, c.hostPort),
            if c.mutualTLSSecret.Some? then PatchVolumes(s.volumes, c.mutualTLSSecret.value) else s.volumes, s.rest)
  }

  lemma {:induction false} PatchedSpecIff(user: PodSpec, c0: ConnectionSpec, c1: ConnectionSpec, namespace: string,
                                          deploymentName: string, b: BuildID)
    requires |user.containers| > 0
    requires forall i :: 0 <= i < |user.volumes| ==> !IsTLSVolume(user.volumes[i])
    ensures PatchedSpec(ControlledSpec(user, c0, namespace, deploymentName, b), c1)
            == ControlledSpec(user, c1, namespace, deploymentName, b)
            <==> SameCredentials(c0, c1) && UserAddressesAre(user.containers, c1.hostPort)
  {
    var patched := PatchedSpec(ControlledSpec(user, c0, namespace, deploymentName, b), c1);
    var anew := ControlledSpec(user, c1, namespace, deploymentName, b);
    forall i | 0 <= i < |user.containers|
      ensures patched.containers[i] == anew.containers[i]
              <==> SameCredentials(c0, c1) && PatchEnv(user.containers[i].env, c1.hostPort) == user.containers[i].env
    {
      PatchedContainerIff(user.containers[i], c0, c1, namespace, deploymentName, b);
    }
    if SameCredentials(c0, c1) && UserAddressesAre(user.containers, c1.hostPort) {
      PatchedVolumes(user, c0, c1, namespace, deploymentName, b);
      assert patched.containers == anew.containers;
    }
    if patched == anew {
      assert patched.containers[0] == anew.containers[0];
      forall i | 0 <= i < |user.containers|
        ensures PatchEnv(user.containers[i].env, c1.hostPort) == user.containers[i].env
      {
        assert patched.containers[i] == anew.containers[i];
      }
    }
  }

  lemma {:induction false} PatchedVolumes(user: PodSpec, c0: ConnectionSpec, c1: ConnectionSpec, namespace: string,
                                          deploymentName: string, b: BuildID)
    requires SameCredentials(c0, c1)
    requires forall i :: 0 <= i < |user.volumes| ==> !IsTLSVolume(user.volumes[i])
    ensures PatchedSpec(ControlledSpec(user, c0, namespace, deploymentName, b), c1).volumes
            == ControlledSpec(user, c1, namespace, deploymentName, b).volumes
  {
    if Mode(c0).MutualTLS? {
      PatchReachesLastVolume(user.volumes, AuthVolumes(c0)[0], c1.mutualTLSSecret.value);
    }
  }

  /** Connection drift goes unnoticed exactly when address and secret name run together to the same
      string; a change of auth mode that keeps the secret's name is one such case. */
  lemma {:induction false} DriftSeenIff(spec: DeploymentSpec, selector: map<string, string>, c0: ConnectionSpec,
                                        c1: ConnectionSpec,
                       deploymentName: string, b: BuildID, h: Hashes)
    requires c0.hostPort != "" && c1.hostPort != ""
    requires forall s, t :: h.sha(s) == h.sha(t) ==> s == t
    ensures ConnectionDrifted(FreshTemplate(spec, selector, c0, deploymentName, b, h), c1, h)
            <==> c0.hostPort + SecretName(c0) != c1.hostPort + SecretName(c1)
  {
    assert |CONNECTION_HASH| != |TEMPLATE_HASH|;
  }

  /** A changed template is noticed exactly if the resource sets its build ID itself; otherwise it is a new
      version's. */
  lemma {:induction false} TemplateDriftSeenIff(spec0: DeploymentSpec, spec1: DeploymentSpec, c: ConnectionSpec,
                                                selector: map<string, string>, deploymentName: string, b: BuildID,
                                                h: Hashes)
    requires h.template(spec0.template) != "" && forall s, t :: h.template(s) == h.template(t) ==> s == t
    ensures TemplateDrifted(FreshTemplate(spec0, selector, c, deploymentName, b, h), spec1, h)
            <==> spec1.customBuildID != "" && spec0.template != spec1.template
  {
  }

  /** A Deployment from before the hash was stored is not rebuilt, and no update stores one, whatever
      becomes of the spec: but for the connection it keeps its old template for good. */
  lemma {:induction false} UnhashedStaysUnhashed(d: Deployment, b: BuildID, was: Snapshot, w: Desired)
    requires "temporal.io/pod-template-spec-hash" !in was.template.annotations
    ensures !TemplateDrifted(was.template, w.spec, w.hashes)
    ensures "temporal.io/pod-template-spec-hash" !in Updated(d, b, was, w).template.annotations
    ensures Updated(d, b, was, w).template.labels == was.template.labels
    ensures Updated(d, b, was, w).template.spec.rest == was.template.spec.rest
  {
    assert |CONNECTION_HASH| != |TEMPLATE_HASH|;
  }

  /** A move from TLS secret x to API key secret x goes unnoticed, although a fresh build would differ. */
  lemma {:induction false} MoveToAPIKeyIsUnseen(spec: DeploymentSpec, selector: map<string, string>,
                                                deploymentName: string, b: BuildID, h: Hashes)
    requires |spec.template.spec.containers| > 0
    ensures var c0, c1 := ConnectionSpec("h:7233", Some("x"), None),
            ConnectionSpec("h:7233", None, Some(SecretKey("x", "k")));
            && !ConnectionDrifted(FreshTemplate(spec, selector, c0, deploymentName, b, h), c1, h)
            && FreshTemplate(spec, selector, c0, deploymentName, b, h) != FreshTemplate(spec, selector, c1,
                 deploymentName, b, h)
  {
    var c0, c1 := ConnectionSpec("h:7233", Some("x"), None), ConnectionSpec("h:7233", None, Some(SecretKey("x", "k")));
    assert |CONNECTION_HASH| != |TEMPLATE_HASH|;
    var x := spec.template.spec.containers[0];
    var was := FreshTemplate(spec, selector, c0, deploymentName, b, h).spec.containers[0];
    var anew := FreshTemplate(spec, selector, c1, deploymentName, b, h).spec.containers[0];
    assert |was.env| == |x.env| + 7 && |anew.env| == |x.env| + 5;
  }

  /** A new API key is noticed, if its secret's name hashes to something new, but not patched in. */
  lemma {:induction false} NewAPIKeyIsNotPatched(spec: DeploymentSpec, selector: map<string, string>,
                                                 deploymentName: string, b: BuildID, h: Hashes)
    requires |spec.template.spec.containers| > 0
    requires forall i :: 0 <= i < |spec.template.spec.volumes| ==> !IsTLSVolume(spec.template.spec.volumes[i])
    ensures var c0, c1 := ConnectionSpec("h:7233", None, Some(SecretKey("a", "k"))),
            ConnectionSpec("h:7233", None, Some(SecretKey("b", "k")));
            PatchedTemplate(FreshTemplate(spec, selector, c0, deploymentName, b, h), c1, h) != FreshTemplate(spec,
                selector, c1, deploymentName, b, h)
  {
    var c0, c1 := ConnectionSpec("h:7233", None, Some(SecretKey("a", "k"))),
      ConnectionSpec("h:7233", None, Some(SecretKey("b", "k")));
    assert "a"[0] != "b"[0];
    PatchIsFreshIff(spec, selector, c0, c1, deploymentName, b, h);
  }
}
