/** What an agent pod does for its tunnel, read off the pod's own fields. */
module PodMeaning {
  import opened Prelude
  import opened Decimal
  import opened TunnelApi
  import opened AgentPod
  import opened ClusterState
  import opened PassSpec
  import opened GateMeaning

  predicate EnvIs(t: Template, variable: string, value: string) {
    variable in t.env && t.env[variable] == value
  }

  /** The file that the agent reads its token from is a mounted item of the pod's Secret, and that item
      holds these bytes. */
  predicate ReadsToken(t: Template, secrets: map<Key, SecretData>, token: seq<byte>) {
    exists item :: item in t.volumeItems
      && EnvIs(t, "JPRQ_TOKEN_FILE", "/etc/jprq/" + item.path)
      && Key(t.namespace, t.volumeSecret) in secrets
      && item.key in secrets[Key(t.namespace, t.volumeSecret)]
      && secrets[Key(t.namespace, t.volumeSecret)][item.key] == token
  }

  /** The pod forwards the spec's subdomain over HTTP to the first port of the Service that the spec
      refers to, by the Service's cluster name. */
  predicate Forwards(t: Template, services: map<Key, seq<ServicePort>>, spec: Spec) {
    && EnvIs(t, "JPRQ_PROTOCOL", "http")
    && EnvIs(t, "JPRQ_SUBDOMAIN", spec.subdomain)
    && EnvIs(t, "JPRQ_BACKEND_HOST", spec.backend.serviceName + "." + spec.backend.namespace + ".svc")
    && "JPRQ_BACKEND_PORT" in t.env
    && var service := Key(spec.backend.namespace, spec.backend.serviceName);
      service in services
      && exists i :: 0 <= i < |services[service]|
           && IsFirstPort(services[service], spec.backend.port, services[service][i].port)
           && t.env["JPRQ_BACKEND_PORT"] == Itoa(services[service][i].port)
  }

  /** The pod is the tunnel's: where it lives, whose it is, how it is labelled, where kubelet probes it. */
  predicate BelongsTo(t: Template, namespace: string, name: string) {
    && t.name == "jprq-" + name && t.namespace == namespace && t.owner == name
    && t.labels == map["app.kubernetes.io/name" := "jprq-agent", "jprq.io/tunnel" := name]
    && EnvIs(t, "JPRQ_HEALTH_ADDR", ":9000")
  }

  /** All that a pod must be to hold the tunnel in this cluster with this token. */
  predicate Serves(t: Template, namespace: string, image: string, w: World, name: string, spec: Spec, token: seq<byte>) {
    t.image == image && BelongsTo(t, namespace, name) && Forwards(t, w.services, spec) && ReadsToken(t, w.secrets, token)
  }

  /** The pod built from inputs that the cluster gives now serves the tunnel. */
  lemma DesiredServes(op: Operator, w: World, name: string, spec: Spec, inputs: BuildInputs)
    requires inputs.subdomain == spec.subdomain && inputs.secretName == spec.secret.name
    requires inputs.secretKey == if spec.secret.key == "" then "authToken" else spec.secret.key
    requires inputs.host == spec.backend.serviceName + "." + spec.backend.namespace + ".svc"
    requires GivesToken(op.namespace, w.secrets, spec.secret, inputs.token)
    requires GivesBackend(w.services, w.slices, spec.backend, inputs.port)
    ensures Serves(DesiredPod(op.hashes, name, ConfigOf(op, inputs)), op.namespace, inputs.image, w, name, spec,
                   inputs.token)
  {
    hide OnlySpaces;
    hide HasServingEndpoint;
    hide SpecHash;
    var t := DesiredPod(op.hashes, name, ConfigOf(op, inputs));
    var item := t.volumeItems[0];
    assert item in t.volumeItems;
    assert "/etc/jprq" + "/" + item.path == "/etc/jprq/" + item.path;
    assert ReadsToken(t, w.secrets, inputs.token);
    PortIsDeclared(w.services[Key(spec.backend.namespace, spec.backend.serviceName)], spec.backend.port, inputs.port);
    hide IsFirstPort;
  }

  lemma PortIsDeclared(ports: seq<ServicePort>, want: PortRef, port: int)
    requires IsFirstPort(ports, want, port)
    ensures exists i :: 0 <= i < |ports| && IsFirstPort(ports, want, ports[i].port) && ports[i].port == port
  {
  }
}
