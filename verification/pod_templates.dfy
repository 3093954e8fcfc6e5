/** The pod template of a managed Deployment: what the controller adds to the user's template
    (internal/k8s/deployments.go). Fields the controller never looks at are kept as one opaque
    string each. Hash functions are parameters. */
module PodTemplates {
  import opened Api

  const BUILD_ID_LABEL := "temporal.io/build-id"
  const TWD_NAME_LABEL := "temporal.io/deployment-name"
  const CONNECTION_HASH := "temporal.io/connection-spec-hash"
  const TEMPLATE_HASH := "temporal.io/pod-template-spec-hash"
  const ADDRESS := "TEMPORAL_ADDRESS"
  const DEPLOYMENT_NAME := "TEMPORAL_DEPLOYMENT_NAME"
  const TLS_VOLUME := "temporal-tls"

  datatype SecretKey = SecretKey(name: string, key: string)
  datatype EnvVar = EnvVar(name: string, value: string, valueFrom: Option<SecretKey>)
  datatype VolumeMount = VolumeMount(name: string, mountPath: string)
  /** secret is the secret name of a secret volume; other volume sources have none. */
  datatype Volume = Volume(name: string, secret: Option<string>, rest: string)
  datatype Container = Container(env: seq<EnvVar>, volumeMounts: seq<VolumeMount>, rest: string)
  datatype PodSpec = PodSpec(containers: seq<Container>, volumes: seq<Volume>, rest: string)
  datatype PodTemplate = PodTemplate(labels: map<string, string>, annotations: map<string, string>, spec: PodSpec)

  datatype ConnectionSpec = ConnectionSpec(hostPort: string, mutualTLSSecret: Option<string>,
      apiKeySecret: Option<SecretKey>)

  datatype AuthMode = NoCredentials | MutualTLS | APIKey

  function Mode(c: ConnectionSpec): AuthMode {
    if c.mutualTLSSecret.Some? then MutualTLS else if c.apiKeySecret.Some? then APIKey else NoCredentials
  }

  /** sha is SHA-256 in hex; template hashes a user's pod template. */
  datatype Hashes = Hashes(sha: string -> string, template: PodTemplate -> string)

  /** ComputeConnectionSpecHash: the address and the secret's name, run together. */
  function ConnectionHash(c: ConnectionSpec, h: Hashes): string {
    if c.hostPort == "" then "" else h.sha(c.hostPort + SecretName(c))
  }

  function SecretName(c: ConnectionSpec): string {
    match Mode(c)
    case MutualTLS => c.mutualTLSSecret.value
    case APIKey => c.apiKeySecret.value.name
    case NoCredentials => ""
  }

  function IdentityEnv(c: ConnectionSpec, namespace: string, deploymentName: string, buildID: BuildID): seq<EnvVar> {
    [ EnvVar(ADDRESS, c.hostPort, None),
      EnvVar("TEMPORAL_NAMESPACE", namespace, None),
      EnvVar(DEPLOYMENT_NAME, deploymentName, None),
      EnvVar("TEMPORAL_WORKER_BUILD_ID", buildID, None) ]
  }

  function AuthEnv(c: ConnectionSpec): seq<EnvVar> {
    match Mode(c)
    case MutualTLS =>
      [ EnvVar("TEMPORAL_TLS", "true", None),
        EnvVar("TEMPORAL_TLS_CLIENT_KEY_PATH", "/etc/temporal/tls/tls.key", None),
        EnvVar("TEMPORAL_TLS_CLIENT_CERT_PATH", "/etc/temporal/tls/tls.crt", None) ]
    case APIKey => [EnvVar("TEMPORAL_API_KEY", "", c.apiKeySecret)]
    case NoCredentials => []
  }

  function AuthMounts(c: ConnectionSpec): seq<VolumeMount> {
    if Mode(c).MutualTLS? then [VolumeMount(TLS_VOLUME, "/etc/temporal/tls")] else []
  }

  function AuthVolumes(c: ConnectionSpec): seq<Volume> {
    if Mode(c).MutualTLS? then [Volume(TLS_VOLUME, c.mutualTLSSecret, "")] else []
  }

  function ControlledContainer(x: Container, c: ConnectionSpec, namespace: string, deploymentName: string,
                               buildID: BuildID): Container {
    Container(x.env + IdentityEnv(c, namespace, deploymentName, buildID) + AuthEnv(c), x.volumeMounts + AuthMounts(c),
        x.rest)
  }

  /** The user's pod spec with everything the controller adds. */
  function ControlledSpec(s: PodSpec, c: ConnectionSpec, namespace: string, deploymentName: string,
                          buildID: BuildID): (r: PodSpec)
  {
    PodSpec(
      seq(|s.containers|, i requires 0 <= i < |s.containers| => ControlledContainer(s.containers[i], c, namespace,
          deploymentName, buildID)),
      s.volumes + AuthVolumes(c),
      s.rest)
  }

  // What the worker in a container finds

  /** The variable is there, and unless the user has one of that name it is the only one of its name. */
  ghost predicate Finds(env: seq<EnvVar>, user: seq<EnvVar>, name: string, value: string,
                        valueFrom: Option<SecretKey>)
  {
    var v := EnvVar(name, value, valueFrom);
    && v in env
    && ((forall i :: 0 <= i < |user| ==> user[i].name != name) ==>
          forall i :: 0 <= i < |env| && env[i].name == name ==> env[i] == v)
  }

  /** The worker finds its server, its namespace, its deployment and its build, and the credentials of
      the connection, TLS before an API key; what the user put in comes first, and nothing else is added. */
  ghost predicate ServesWorker(x: Container, user: Container, c: ConnectionSpec, namespace: string,
                               deploymentName: string, buildID: BuildID)
  {
    && user.env <= x.env && user.volumeMounts <= x.volumeMounts && x.rest == user.rest
    && Finds(x.env, user.env, "TEMPORAL_ADDRESS", c.hostPort, None)
    && Finds(x.env, user.env, "TEMPORAL_NAMESPACE", namespace, None)
    && Finds(x.env, user.env, "TEMPORAL_DEPLOYMENT_NAME", deploymentName, None)
    && Finds(x.env, user.env, "TEMPORAL_WORKER_BUILD_ID", buildID, None)
    && if c.mutualTLSSecret.Some? then
         && Finds(x.env, user.env, "TEMPORAL_TLS", "true", None)
         && Finds(x.env, user.env, "TEMPORAL_TLS_CLIENT_KEY_PATH", "/etc/temporal/tls/tls.key", None)
         && Finds(x.env, user.env, "TEMPORAL_TLS_CLIENT_CERT_PATH", "/etc/temporal/tls/tls.crt", None)
         && VolumeMount("temporal-tls", "/etc/temporal/tls") in x.volumeMounts
         && |x.env| == |user.env| + 7 && |x.volumeMounts| == |user.volumeMounts| + 1
       else
         && (c.apiKeySecret.Some? ==> Finds(x.env, user.env, "TEMPORAL_API_KEY", "", c.apiKeySecret))
         && |x.env| == |user.env| + (if c.apiKeySecret.Some? then 5 else 4)
         && |x.volumeMounts| == |user.volumeMounts|
  }

  ghost predicate ServesWorkers(s: PodSpec, user: PodSpec, c: ConnectionSpec, namespace: string,
                                deploymentName: string, buildID: BuildID)
  {
    && |s.containers| == |user.containers| && s.rest == user.rest && user.volumes <= s.volumes
    && (forall i :: 0 <= i < |s.containers| ==>
          ServesWorker(s.containers[i], user.containers[i], c, namespace, deploymentName, buildID))
    && |s.volumes| == |user.volumes| + (if c.mutualTLSSecret.Some? then 1 else 0)
    && (c.mutualTLSSecret.Some? ==> Volume("temporal-tls", c.mutualTLSSecret, "") in s.volumes)
  }

  ghost predicate DistinctNames(env: seq<EnvVar>) {
    forall i, j :: 0 <= i < j < |env| ==> env[i].name != env[j].name
  }

  lemma {:induction false} AddedNamesDiffer(c: ConnectionSpec, namespace: string, deploymentName: string,
                                            buildID: BuildID)
    ensures DistinctNames(IdentityEnv(c, namespace, deploymentName, buildID) + AuthEnv(c))
  {
    assert "TEMPORAL_API_KEY"[10] != ADDRESS[10] && "TEMPORAL_WORKER_BUILD_ID"[9] != DEPLOYMENT_NAME[9];
    assert |ADDRESS| == |"TEMPORAL_API_KEY"| == 16 && |"TEMPORAL_NAMESPACE"| == 18 && |"TEMPORAL_TLS"| == 12;
    assert |DEPLOYMENT_NAME| == |"TEMPORAL_WORKER_BUILD_ID"| == 24;
    assert |"TEMPORAL_TLS_CLIENT_KEY_PATH"| == 28 && |"TEMPORAL_TLS_CLIENT_CERT_PATH"| == 29;
  }

  lemma {:induction false} AppendedIsFound(user: seq<EnvVar>, added: seq<EnvVar>)
    requires DistinctNames(added)
    ensures forall k :: 0 <= k < |added| ==>
              Finds(user + added, user, added[k].name, added[k].value, added[k].valueFrom)
  {
    forall k | 0 <= k < |added|
      ensures Finds(user + added, user, added[k].name, added[k].value, added[k].valueFrom)
    {
      assert (user + added)[|user| + k] == added[k];
    }
  }

  lemma {:induction false} ControlledServesWorker(x: Container, c: ConnectionSpec, namespace: string,
                                                  deploymentName: string, buildID: BuildID)
    ensures ServesWorker(ControlledContainer(x, c, namespace, deploymentName, buildID), x, c, namespace, deploymentName,
                         buildID)
  {
    var identity, auth := IdentityEnv(c, namespace, deploymentName, buildID), AuthEnv(c);
    var added := identity + auth;
    AddedNamesDiffer(c, namespace, deploymentName, buildID);
    AppendedIsFound(x.env, added);
    assert x.env + identity + auth == x.env + added;
    assert added[..4] == identity && added[4..] == auth;
  }

  /** Every container that the controller modifies serves its worker. */
  lemma {:induction false} ControlledServesWorkers(s: PodSpec, c: ConnectionSpec, namespace: string,
                                                   deploymentName: string, buildID: BuildID)
    ensures ServesWorkers(ControlledSpec(s, c, namespace, deploymentName, buildID), s, c, namespace, deploymentName,
                          buildID)
  {
    forall i | 0 <= i < |s.containers|
      ensures ServesWorker(ControlledSpec(s, c, namespace, deploymentName, buildID).containers[i], s.containers[i], c,
                           namespace, deploymentName, buildID)
    {
      ControlledServesWorker(s.containers[i], c, namespace, deploymentName, buildID);
    }
  }

  /** A pod spec under modification: the deep copy both builders start from. */
  class PodSpecCopy {
    var containers: seq<Container>
    var volumes: seq<Volume>
    const rest: string

    constructor (s: PodSpec)
      ensures Value() == s
    {
      containers, volumes, rest := s.containers, s.volumes, s.rest;
    }

    function Value(): PodSpec
      reads this
    {
      PodSpec(containers, volumes, rest)
    }

    /** ApplyControllerPodSpecModifications. */
    method ApplyControllerModifications(c: ConnectionSpec, namespace: string, deploymentName: string, buildID: BuildID)
      modifies this
      ensures Value() == ControlledSpec(old(Value()), c, namespace, deploymentName, buildID)
      ensures ServesWorkers(Value(), old(Value()), c, namespace, deploymentName, buildID)
    {
      ghost var user := Value();
      var n := |containers|;
      for i := 0 to n
        invariant volumes == user.volumes && |containers| == n
        invariant forall k :: 0 <= k < i ==> containers[k] == user.containers[k].(
                                env := user.containers[k].env + IdentityEnv(c, namespace, deploymentName, buildID))
        invariant forall k :: i <= k < n ==> containers[k] == user.containers[k]
      {
        var x := containers[i];
        x := x.(env := x.env + IdentityEnv(c, namespace, deploymentName, buildID));
        containers := containers[i := x];
      }
      if c.mutualTLSSecret.Some? {
        for i := 0 to n
          invariant volumes == user.volumes && |containers| == n
          invariant forall k :: 0 <= k < i ==>
                      containers[k] == ControlledContainer(user.containers[k], c, namespace, deploymentName, buildID)
          invariant forall k :: i <= k < n ==> containers[k] == user.containers[k].(
                                  env := user.containers[k].env + IdentityEnv(c, namespace, deploymentName, buildID))
        {
          var x := containers[i];
          x := x.(env := x.env + AuthEnv(c));
          x := x.(volumeMounts := x.volumeMounts + AuthMounts(c));
          containers := containers[i := x];
        }
        volumes := volumes + AuthVolumes(c);
      } else if c.apiKeySecret.Some? {
        for i := 0 to n
          invariant volumes == user.volumes && |containers| == n
          invariant forall k :: 0 <= k < i ==>
                      containers[k] == ControlledContainer(user.containers[k], c, namespace, deploymentName, buildID)
          invariant forall k :: i <= k < n ==> containers[k] == user.containers[k].(
                                  env := user.containers[k].env + IdentityEnv(c, namespace, deploymentName, buildID))
        {
          var x := containers[i];
          x := x.(env := x.env + AuthEnv(c));
          containers := containers[i := x];
        }
      }
      var built := ControlledSpec(user, c, namespace, deploymentName, buildID);
      assert forall k :: 0 <= k < n ==> containers[k] == built.containers[k];
      ControlledServesWorkers(user, c, namespace, deploymentName, buildID);
    }
  }
}
