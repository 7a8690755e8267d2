/** The reconciler as the manager runs it: an API server whose objects it reads and writes, an
    in-memory copy of the tunnel it mutates, and one method per step, each proved against
    the decision table of PassSpec. */
module Controller {
  import opened Prelude
  import opened TunnelApi
  import opened AgentPod
  import opened Classify
  import opened ClusterState
  import opened DomainResolver
  import opened PassSpec
  import opened GateMeaning
  import opened Runs

  datatype Read<+T> = Got(value: T) | NotFound | ReadError

  datatype WriteResult = Written | Missing | WriteError

  class ApiServer {
    var tunnels: map<string, Tunnel>
    var pods: map<Key, Pod>
    var secrets: map<Key, SecretData>
    var services: map<Key, seq<ServicePort>>
    var slices: map<Key, EndpointSlice>
    // What happens to the calls of the pass under way, and the writes it has asked for.
    var oracle: Oracle
    var log: seq<Write>

    constructor (w: World, oracle: Oracle)
      ensures Contents() == w && this.oracle == oracle && log == []
    {
      tunnels, pods, secrets, services, slices := w.tunnels, w.pods, w.secrets, w.services, w.slices;
      this.oracle := oracle;
      log := [];
    }

    function Contents(): World
      reads this
    {
      World(tunnels, pods, secrets, services, slices)
    }

    method GetTunnel(name: string) returns (r: Read<Tunnel>)
      ensures r == if oracle.getTunnel then ReadError else if name in tunnels then Got(tunnels[name]) else NotFound
    {
      if oracle.getTunnel { return ReadError; }
      if name !in tunnels { return NotFound; }
      return Got(tunnels[name]);
    }

    method GetPod(key: Key) returns (r: Read<Pod>)
      ensures r == if oracle.getPod then ReadError else if key in pods then Got(pods[key]) else NotFound
    {
      if oracle.getPod { return ReadError; }
      if key !in pods { return NotFound; }
      return Got(pods[key]);
    }

    method GetSecret(key: Key) returns (r: Read<SecretData>)
      ensures r == if oracle.getSecret then ReadError else if key in secrets then Got(secrets[key]) else NotFound
    {
      if oracle.getSecret { return ReadError; }
      if key !in secrets { return NotFound; }
      return Got(secrets[key]);
    }

    method GetService(key: Key) returns (r: Read<seq<ServicePort>>)
      ensures r == if oracle.getService then ReadError else if key in services then Got(services[key]) else NotFound
    {
      if oracle.getService { return ReadError; }
      if key !in services { return NotFound; }
      return Got(services[key]);
    }

    /** The slices of a namespace that carry a Service's label, in no particular order. */
    method ListSlices(namespace: string, service: string) returns (r: Option<seq<EndpointSlice>>)
      ensures r.None? <==> oracle.listSlices
      ensures r.Some? ==> forall s :: s in r.value <==>
        exists k :: k in slices && k.namespace == namespace && SliceServes(slices[k], service) && slices[k] == s
    {
      if oracle.listSlices { return None; }
      var items: seq<EndpointSlice> := [];
      var todo := slices.Keys;
      while todo != {}
        invariant todo <= slices.Keys
        invariant forall s :: s in items <==>
          exists k :: k in slices && k !in todo && k.namespace == namespace && SliceServes(slices[k], service)
                      && slices[k] == s
        decreases todo
      {
        var k :| k in todo;
        ghost var before := items;
        if k.namespace == namespace && SliceServes(slices[k], service) {
          items := items + [slices[k]];
        }
        forall s
          ensures s in items <==>
            exists j :: j in slices && j !in todo - {k} && j.namespace == namespace && SliceServes(slices[j], service)
                        && slices[j] == s
        {
          assert s in items <==>
            (s in before || (k.namespace == namespace && SliceServes(slices[k], service) && s == slices[k]));
        }
        todo := todo - {k};
      }
      return Some(items);
    }

    method CreatePod(key: Key, template: Template) returns (ok: bool)
      modifies this`pods, this`log
      ensures log == old(log) + [Write.CreatePod]
      ensures key !in old(pods) ==>
        && ok == (oracle.create == Done)
        && pods == if oracle.create == Refused then old(pods) else old(pods)[key := NewPod(oracle.uid, template)]
      ensures key in old(pods) ==> !ok && pods == old(pods)
    {
      log := log + [Write.CreatePod];
      if key in pods || oracle.create == Refused { return false; }
      pods := pods[key := NewPod(oracle.uid, template)];
      return oracle.create == Done;
    }

    method DeletePod(key: Key) returns (r: WriteResult)
      modifies this`pods, this`log
      ensures log == old(log) + [Write.DeletePod]
      ensures key in old(pods) ==>
        && r == (if oracle.delete == Done then Written else WriteError)
        && pods == SetKey(old(pods), key, Deleted(old(pods)[key], oracle.delete))
      ensures key !in old(pods) ==> r != Written && pods == old(pods)
    {
      log := log + [Write.DeletePod];
      if oracle.delete == Refused {
        SetGetKey(pods, key, None, key);
        return WriteError;
      }
      if key !in pods { return Missing; }
      pods := SetKey(pods, key, AfterDelete(pods[key]));
      return if oracle.delete == Done then Written else WriteError;
    }

    /** A merge patch of the status subresource. */
    method PatchStatus(name: string, status: Status) returns (ok: bool)
      requires name in tunnels
      modifies this`tunnels, this`log
      ensures log == old(log) + [Write.PatchStatus]
      ensures ok == (oracle.patch == Done)
      ensures tunnels == if oracle.patch == Refused then old(tunnels)
                         else old(tunnels)[name := old(tunnels)[name].(status := status)]
    {
      log := log + [Write.PatchStatus];
      if oracle.patch != Refused {
        tunnels := tunnels[name := tunnels[name].(status := status)];
      }
      return oracle.patch == Done;
    }
  }

  /** The copy of a tunnel that one pass works on. */
  class TunnelObject {
    const name: string
    const generation: nat
    const spec: Spec
    const deleting: bool
    var status: Status

    constructor (name: string, t: Tunnel)
      ensures this.name == name && Contents() == t
    {
      this.name := name;
      generation, spec, deleting, status := t.generation, t.spec, t.deleting, t.status;
    }

    function Contents(): Tunnel
      reads this
    {
      Tunnel(generation, spec, status, deleting)
    }

    method SetStatusCondition(c: Condition)
      modifies this
      ensures status == WithCondition(old(status), c)
    {
      status := status.(conditions := SetCondition(status.conditions, c));
    }
  }

  datatype Gate = Open | Shut(reason: Reason, message: Message)

  function TokenGate(check: TokenCheck): Gate {
    match check
    case TokenOk(_) => Open
    case TokenBad(reason, message) => Shut(reason, message)
  }

  function BackendGate(check: BackendCheck): Gate {
    match check
    case BackendOk(_, _) => Open
    case BackendBad(reason, message) => Shut(reason, message)
  }

  method ResolveServicePort(ports: seq<ServicePort>, want: PortRef) returns (port: Option<int>)
    ensures port == ResolvePort(ports, want)
  {
    if want.ByNumber? {
      for i := 0 to |ports|
        invariant ResolvePort(ports, want) == ResolvePort(ports[i..], want)
      {
        if ports[i].port == want.number {
          return Some(ports[i].port);
        }
        assert ports[i..][1..] == ports[i + 1..];
      }
      return None;
    }
    for i := 0 to |ports|
      invariant ResolvePort(ports, want) == ResolvePort(ports[i..], want)
    {
      if ports[i].name == want.name {
        return Some(ports[i].port);
      }
      assert ports[i..][1..] == ports[i + 1..];
    }
    return None;
  }

  lemma BackendGives(services: map<Key, seq<ServicePort>>, slices: map<Key, EndpointSlice>, ref: BackendRef)
    ensures var check := CheckBackend(services, slices, ref);
      && (check.BackendOk? ==> GivesBackend(services, slices, ref, check.port))
      && (check.BackendBad? ==> forall p :: !GivesBackend(services, slices, ref, p))
  {
    hide CheckBackend;
    hide GivesBackend;
    BackendGateMeaning(services, slices, ref);
    var check := CheckBackend(services, slices, ref);
    if check.BackendOk? { assert check == BackendOk(check.host, check.port); }
    forall p | GivesBackend(services, slices, ref, p) ensures check.BackendOk? {
      assert check == BackendOk(ref.serviceName + "." + ref.namespace + ".svc", p);
    }
  }

  lemma ServingEndpoint(slices: map<Key, EndpointSlice>, service: Key)
    ensures HasReadyEndpoint(slices, service) <==>
      exists k, e :: k in slices && k.namespace == service.namespace
        && "kubernetes.io/service-name" in slices[k].labels
        && slices[k].labels["kubernetes.io/service-name"] == service.name
        && e in slices[k].endpoints && (e.ready == None || e.ready == Some(true))
  {
    hide HasReadyEndpoint;
    EndpointMeaning(slices, BackendRef(service.namespace, service.name, ByNumber(0)));
  }

  class Reconciler {
    const api: ApiServer
    const resolver: Resolver
    const op: Operator

    constructor (api: ApiServer, resolver: Resolver, op: Operator)
      requires resolver.domainOverride == op.domainOverride
      ensures this.api == api && this.resolver == resolver && this.op == op && Valid()
    {
      this.api, this.resolver, this.op := api, resolver, op;
    }

    predicate Valid() {
      resolver.domainOverride == op.domainOverride
    }

    /** What a pass for `name` would see now. */
    function Sees(name: string): View
      reads api, resolver
    {
      Look(op, api.Contents(), resolver.cached, name)
    }

    /** Reconcile does to the cluster and the resolver exactly what Pass says, and returns what it says. */
    method Reconcile(name: string) returns (requeue: Requeue, err: bool)
      requires Valid()
      modifies api, resolver
      ensures var e := Pass(op, name, old(Sees(name)), old(api.oracle));
        && api.Contents() == Put(op, old(api.Contents()), name, e)
        && resolver.cached == e.cached
        && requeue == e.requeue && err == e.err
        && api.log == old(api.log) + e.writes
      ensures api.oracle == old(api.oracle)
      ensures old(api.oracle).getTunnel ==> err
    {
      hide Body;
      ghost var v, o := Sees(name), api.oracle;
      if !Acts(v, o) {
        PutUnchanged(op, api.Contents(), name, Pass(op, name, v, o));
      }
      var got := api.GetTunnel(name);
      if got.ReadError? { return NoRequeue, true; }
      if got.NotFound? { return NoRequeue, false; }
      var tunnel := new TunnelObject(name, got.value);
      if tunnel.deleting { return NoRequeue, false; }
      if tunnel.status.phase == Failed && tunnel.status.observedGeneration == tunnel.generation {
        return NoRequeue, false;
      }
      var original := tunnel.status;
      requeue, err := ReconcileBody(tunnel);
      ghost var b := Body(op, name, v, v.tunnel.value, o);
      assert Pass(op, name, v, o) == Persist(v.tunnel.value, b, o);
      SetGetKey(api.tunnels, name, None, name);
      var patched := PatchTunnelStatus(tunnel, original);
      if !patched {
        if !err { return NoRequeue, true; }
      }
    }

    method ReconcileBody(tunnel: TunnelObject) returns (requeue: Requeue, err: bool)
      requires Valid()
      modifies tunnel, api`pods, api`log, resolver
      ensures var b := Body(op, tunnel.name, old(Sees(tunnel.name)), old(tunnel.Contents()), old(api.oracle));
        && tunnel.status == b.status
        && api.pods == SetKey(old(api.pods), PodKey(op, tunnel.name), b.pod)
        && resolver.cached == b.cached
        && requeue == b.requeue && err == b.err
        && api.log == old(api.log) + b.writes
    {
      SetGetKey(api.pods, PodKey(op, tunnel.name), None, PodKey(op, tunnel.name));
      var existing, token, tokenGate, host, port, backendGate, readErr := ReadInputs(tunnel);
      if readErr { return NoRequeue, true; }
      ghost var seen := Observe(op, old(Sees(tunnel.name)), old(tunnel.Contents()), old(api.oracle));
      requeue, err := Converge(tunnel, existing, token, tokenGate, host, port, backendGate, seen.token, seen.backend);
    }

    /** The reads at the top of a pass and what they leave in the status. */
    method ReadInputs(tunnel: TunnelObject)
      returns (existing: Option<Pod>, token: seq<byte>, tokenGate: Gate, host: string, port: int,
               backendGate: Gate, err: bool)
      modifies tunnel
      ensures var v := old(Sees(tunnel.name));
        var seen := Observe(op, v, old(tunnel.Contents()), api.oracle);
        && tunnel.status == seen.status
        && err == seen.ReadFailed?
        && (!err ==>
              && existing == v.pod
              && tokenGate == TokenGate(seen.token) && (seen.token.TokenOk? ==> token == seen.token.token)
              && backendGate == BackendGate(seen.backend)
              && (seen.backend.BackendOk? ==> host == seen.backend.host && port == seen.backend.port))
      ensures tunnel.status.assignedSubdomain == tunnel.spec.subdomain
    {
      ghost var v, t := Sees(tunnel.name), tunnel.Contents();
      existing, token, tokenGate, host, port, backendGate := None, [], Open, "", 0, Open;
      tunnel.status := tunnel.status.(assignedSubdomain := tunnel.spec.subdomain);
      var read := api.GetPod(PodKey(op, tunnel.name));
      if read.ReadError? {
        err := true;
        return;
      }
      existing := if read.Got? then Some(read.value) else None;
      tunnel.status := tunnel.status.(podName := "");
      if existing.Some? {
        tunnel.status := tunnel.status.(podName := existing.value.template.name);
        var cs := FindAgentStatus(existing.value.statuses);
        if cs.Some? {
          tunnel.status := tunnel.status.(restartCount := cs.value.restartCount);
        }
      }
      assert tunnel.status == WithPod(t.status.(assignedSubdomain := t.spec.subdomain), v.pod);

      token, tokenGate, err := CheckTokenSecret(tunnel);
      if err { return; }
      host, port, backendGate, err := CheckBackendService(tunnel);
      if err { return; }
      if backendGate.Open? {
        tunnel.status := tunnel.status.(backendAddress := Address(host, port));
      }
    }

    /** Everything a pass does once it knows its inputs. */
    method Converge(tunnel: TunnelObject, existing: Option<Pod>, token: seq<byte>, tokenGate: Gate, host: string,
                    port: int, backendGate: Gate, ghost tokenCheck: TokenCheck, ghost backendCheck: BackendCheck)
      returns (requeue: Requeue, err: bool)
      requires Valid()
      requires existing == GetKey(api.pods, PodKey(op, tunnel.name))
      requires tokenGate == TokenGate(tokenCheck) && (tokenCheck.TokenOk? ==> token == tokenCheck.token)
      requires backendGate == BackendGate(backendCheck)
      requires backendCheck.BackendOk? ==> host == backendCheck.host && port == backendCheck.port
      requires tunnel.status.assignedSubdomain == tunnel.spec.subdomain
      modifies tunnel, api`pods, api`log, resolver
      ensures var d := Decide(op, existing, tunnel.spec, tokenCheck, backendCheck, old(api.oracle).ownerRef);
        var b := Carry(op, tunnel.name, existing, old(resolver.cached), old(tunnel.status), d, old(api.oracle));
        && tunnel.status == b.status
        && api.pods == SetKey(old(api.pods), PodKey(op, tunnel.name), b.pod)
        && resolver.cached == b.cached
        && requeue == b.requeue && err == b.err
        && api.log == old(api.log) + b.writes
    {
      hide SetCondition;
      hide SpecHash;
      hide ClassifyPod;
      hide RunningAndReady;
      hide ResolveDomain;
      ghost var d := Decide(op, existing, tunnel.spec, tokenCheck, backendCheck, api.oracle.ownerRef);
      if existing.Some? && existing.value.terminating {
        assert d == AwaitTermination;
        SetGetKey(api.pods, PodKey(op, tunnel.name), None, PodKey(op, tunnel.name));
        SetNotReady(tunnel, Degraded, PodPending, PreviousPodTerminating);
        return AfterMinute, false;
      }

      if tokenGate.Open? && backendGate.Open? {
        if api.oracle.ownerRef {
          assert d == RejectOwner;
          SetGetKey(api.pods, PodKey(op, tunnel.name), None, PodKey(op, tunnel.name));
          return NoRequeue, true;
        }
        var desired := DesiredPod(op.hashes, tunnel.name, AgentConfigFor(tunnel, host, port, token));
        ghost var inputs := InputsOf(op, tunnel.spec, tokenCheck, backendCheck);
        var settled;
        settled, requeue, err := EnsurePod(tunnel, existing, desired, inputs);
        if settled {
          assert d == if existing.None? then Build(inputs) else Replace;
          return;
        }
      }

      assert d == ReportedDecision(tunnel.spec, existing, tokenGate, backendGate);
      requeue, err := Report(tunnel, existing, tokenGate, backendGate);
    }

    function ReportedDecision(spec: Spec, existing: Option<Pod>, tokenGate: Gate, backendGate: Gate): Decision
      requires tokenGate.Open? && backendGate.Open? ==> existing.Some?
    {
      if existing.Some? && ClassifyPod(existing.value.statuses, spec.collision).Some? then
        var (verdict, code) := ClassifyPod(existing.value.statuses, spec.collision).value;
        Judge(verdict, code)
      else if tokenGate.Shut? then Hold(tokenGate.reason, tokenGate.message)
      else if backendGate.Shut? then Hold(backendGate.reason, backendGate.message)
      else if RunningAndReady(existing.value.statuses) then GoActive
      else AwaitReady
    }

    /** What is left once no pod has to be created or replaced: a verdict, a closed gate, or the agent's state. */
    method Report(tunnel: TunnelObject, existing: Option<Pod>, tokenGate: Gate, backendGate: Gate)
      returns (requeue: Requeue, err: bool)
      requires Valid()
      requires existing == GetKey(api.pods, PodKey(op, tunnel.name))
      requires tokenGate.Open? && backendGate.Open? ==> existing.Some?
      modifies tunnel, api`pods, api`log, resolver
      ensures var d := ReportedDecision(tunnel.spec, existing, tokenGate, backendGate);
        var b := Carry(op, tunnel.name, existing, old(resolver.cached), old(tunnel.status), d, old(api.oracle));
        && tunnel.status == b.status
        && api.pods == SetKey(old(api.pods), PodKey(op, tunnel.name), b.pod)
        && resolver.cached == b.cached
        && requeue == b.requeue && err == b.err
        && api.log == old(api.log) + b.writes
    {
      var key := PodKey(op, tunnel.name);
      SetGetKey(api.pods, key, None, key);
      if existing.Some? {
        var judgement := JudgePod(existing.value.statuses, tunnel.spec.collision);
        if judgement.Some? {
          requeue, err := ApplyVerdict(tunnel, key, judgement.value.0, judgement.value.1);
          return;
        }
      }

      if tokenGate.Shut? || backendGate.Shut? {
        var failed := if tokenGate.Shut? then tokenGate else backendGate;
        var phase := Pending;
        if existing.Some? {
          phase := Degraded;
        }
        SetNotReady(tunnel, phase, failed.reason, failed.message);
        return AfterMinute, false;
      }
      requeue := ReportAgent(tunnel, existing.value);
      err := false;
    }

    /** Create the pod when there is none, delete it when it is outdated. */
    method EnsurePod(tunnel: TunnelObject, existing: Option<Pod>, desired: Template, ghost inputs: BuildInputs)
      returns (settled: bool, requeue: Requeue, err: bool)
      requires existing == GetKey(api.pods, PodKey(op, tunnel.name))
      requires desired == DesiredPod(op.hashes, tunnel.name, ConfigOf(op, inputs))
      modifies tunnel, api`pods, api`log
      ensures settled <==>
        (existing.None? || Lookup(existing.value.template.annotations, SPEC_HASH_ANNOTATION)
                           != SpecHash(op.hashes, ConfigOf(op, inputs)))
      ensures settled ==>
        var d := if existing.None? then Build(inputs) else Replace;
        var b := Carry(op, tunnel.name, existing, resolver.cached, old(tunnel.status), d, old(api.oracle));
        && tunnel.status == b.status
        && api.pods == SetKey(old(api.pods), PodKey(op, tunnel.name), b.pod)
        && requeue == b.requeue && err == b.err
        && api.log == old(api.log) + b.writes
      ensures !settled ==> tunnel.status == old(tunnel.status) && api.pods == old(api.pods) && api.log == old(api.log)
    {
      hide SetCondition;
      hide SpecHash;
      var key := PodKey(op, tunnel.name);
      AnnotationOf(op.hashes, tunnel.name, ConfigOf(op, inputs));
      hide DesiredPod;
      SetGetKey(api.pods, key, None, key);
      if existing.None? {
        var created := api.CreatePod(key, desired);
        if !created { return true, NoRequeue, true; }
        tunnel.status := tunnel.status.(podName := desired.name);
        SetNotReady(tunnel, Pending, PodPending, PodCreatedWaiting);
        return true, AfterMinute, false;
      }
      if Lookup(existing.value.template.annotations, SPEC_HASH_ANNOTATION)
         != Lookup(desired.annotations, SPEC_HASH_ANNOTATION)
      {
        var r := api.DeletePod(key);
        if r == WriteError { return true, NoRequeue, true; }
        SetNotReady(tunnel, Pending, PodPending, ConfigurationChanged);
        return true, AfterMinute, false;
      }
      return false, NoRequeue, false;
    }

    /** Active when the agent runs and is ready, otherwise Degraded. */
    method ReportAgent(tunnel: TunnelObject, existing: Pod) returns (requeue: Requeue)
      requires Valid()
      modifies tunnel, resolver
      ensures var (domain, cached) := ResolveDomain(op.domainOverride, old(resolver.cached), api.oracle.fetch);
        if RunningAndReady(existing.statuses) then
          && tunnel.status == Activated(old(tunnel.status), domain, api.oracle.now)
          && resolver.cached == cached
          && requeue == AfterFiveMinutes
        else
          && tunnel.status == NotReady(old(tunnel.status), Degraded, PodNotReady, AgentPodNotReady, api.oracle.now)
          && resolver.cached == old(resolver.cached)
          && requeue == AfterMinute
    {
      var cs := FindAgentStatus(existing.statuses);
      if cs.Some? && cs.value.state.Running? && cs.value.ready {
        tunnel.status := tunnel.status.(phase := Active, lastFailureMessage := NoMessage);
        var domain := resolver.Domain(api.oracle.fetch);
        if domain.Some? {
          tunnel.status := tunnel.status.(url := UrlFor(tunnel.status.assignedSubdomain, domain.value));
        }
        tunnel.SetStatusCondition(Condition(Ready, true, TunnelActive, TunnelOnline, api.oracle.now));
        return AfterFiveMinutes;
      }
      SetNotReady(tunnel, Degraded, PodNotReady, AgentPodNotReady);
      return AfterMinute;
    }

    method ApplyVerdict(tunnel: TunnelObject, key: Key, verdict: Verdict, code: int)
      returns (requeue: Requeue, err: bool)
      requires key in api.pods
      modifies tunnel, api`pods, api`log
      ensures var out := Carry(op, tunnel.name, Some(old(api.pods)[key]), resolver.cached,
          old(tunnel.status), Judge(verdict, code), old(api.oracle));
        && tunnel.status == out.status
        && api.pods == SetKey(old(api.pods), key, out.pod)
        && requeue == out.requeue && err == out.err
        && api.log == old(api.log) + out.writes
      ensures tunnel.status.phase == (if verdict.terminal then Failed else Degraded)
      ensures tunnel.status.lastExitCode == Some(code) && tunnel.status.lastFailureMessage == verdict.message
      ensures Shows(tunnel.status.conditions, Ready, false, verdict.reason, verdict.message)
      ensures if verdict.tokenInvalid
        then Shows(tunnel.status.conditions, TokenReady, false, verdict.reason, verdict.message)
        else FindCondition(tunnel.status.conditions, TokenReady) == FindCondition(old(tunnel.status).conditions, TokenReady)
    {
      hide FindCondition;
      hide SetCondition;
      JudgedEffect(tunnel.status, verdict, code, api.oracle.now);
      SetGetKey(api.pods, key, None, key);
      tunnel.status := tunnel.status.(lastExitCode := Some(code), lastFailureMessage := verdict.message);
      if verdict.tokenInvalid {
        tunnel.SetStatusCondition(Condition(TokenReady, false, verdict.reason, verdict.message, api.oracle.now));
      }
      if !verdict.terminal {
        SetNotReady(tunnel, Degraded, verdict.reason, verdict.message);
        return AfterMinute, false;
      }
      SetNotReady(tunnel, Failed, verdict.reason, verdict.message);
      if verdict.deletePod {
        var r := api.DeletePod(key);
        if r == WriteError { return NoRequeue, true; }
        tunnel.status := tunnel.status.(podName := "");
      }
      return NoRequeue, false;
    }

    method CheckTokenSecret(tunnel: TunnelObject) returns (token: seq<byte>, gate: Gate, err: bool)
      modifies tunnel
      ensures err == api.oracle.getSecret
      ensures err ==> tunnel.status == old(tunnel.status)
      ensures !err ==>
        var check := CheckToken(op, api.secrets, tunnel.spec.secret);
        && tunnel.status == WithCondition(old(tunnel.status), TokenCondition(tunnel.spec.secret, check, api.oracle.now))
        && gate == TokenGate(check)
        && (check.TokenOk? ==> token == check.token)
      ensures !err && gate.Open? ==> GivesToken(op.namespace, api.secrets, tunnel.spec.secret, token)
      ensures !err && gate.Shut? ==> forall t :: !GivesToken(op.namespace, api.secrets, tunnel.spec.secret, t)
    {
      hide OnlySpaces;
      TokenGateMeaning(op, api.secrets, tunnel.spec.secret);
      assert CheckToken(op, api.secrets, tunnel.spec.secret).TokenBad? ==>
        forall t :: !GivesToken(op.namespace, api.secrets, tunnel.spec.secret, t);
      hide GivesToken;
      token := [];
      var ref := tunnel.spec.secret;
      var read := api.GetSecret(Key(op.namespace, ref.name));
      if read.ReadError? { return [], Open, true; }
      if read.NotFound? {
        gate := FailGate(tunnel, TokenReady, SecretNotFound, TokenSecretMissing(ref.name, op.namespace));
        return [], gate, false;
      }
      var dataKey := ref.key;
      if dataKey == "" {
        dataKey := DEFAULT_TOKEN_KEY;
      }
      if dataKey !in read.value {
        gate := FailGate(tunnel, TokenReady, SecretKeyNotFound, TokenKeyMissing(ref.name, dataKey));
        return [], gate, false;
      }
      if Blank(read.value[dataKey]) {
        gate := FailGate(tunnel, TokenReady, EmptyToken, TokenBlank(ref.name, dataKey));
        return [], gate, false;
      }
      tunnel.SetStatusCondition(Condition(TokenReady, true, TokenFound, UsingToken(ref.name, dataKey), api.oracle.now));
      return read.value[dataKey], Open, false;
    }

    method CheckBackendService(tunnel: TunnelObject) returns (host: string, port: int, gate: Gate, err: bool)
      modifies tunnel
      ensures var v := Sees(tunnel.name);
        && err == BackendReadFails(v.services, tunnel.spec.backend, api.oracle)
        && (err ==> tunnel.status == old(tunnel.status))
        && (!err ==>
              var check := CheckBackend(v.services, v.slices, tunnel.spec.backend);
              && tunnel.status == WithCondition(old(tunnel.status), BackendCondition(check, api.oracle.now))
              && gate == BackendGate(check)
              && (check.BackendOk? ==> host == check.host && port == check.port))
      ensures !err && gate.Open? ==> GivesBackend(api.services, api.slices, tunnel.spec.backend, port)
      ensures !err && gate.Shut? ==> forall p :: !GivesBackend(api.services, api.slices, tunnel.spec.backend, p)
    {
      BackendGives(api.services, api.slices, tunnel.spec.backend);
      hide GivesBackend;
      host, port := "", 0;
      var ref := tunnel.spec.backend;
      var key := Key(ref.namespace, ref.serviceName);
      var read := api.GetService(key);
      if read.ReadError? { return "", 0, Open, true; }
      if read.NotFound? {
        gate := FailGate(tunnel, BackendReady, ServiceNotFound, ServiceMissing(key.namespace, key.name));
        return "", 0, gate, false;
      }
      var resolved := ResolveServicePort(read.value, ref.port);
      if resolved.None? {
        gate := FailGate(tunnel, BackendReady, PortNotResolvable, PortMessage(ref.port, key));
        return "", 0, gate, false;
      }
      var ready, listErr := FindReadyEndpoint(key);
      if listErr { return "", 0, Open, true; }
      if !ready {
        gate := FailGate(tunnel, BackendReady, NoReadyEndpoints, EndpointsMissing(key.namespace, key.name));
        return "", 0, gate, false;
      }
      host, port := key.name + "." + key.namespace + ".svc", resolved.value;
      tunnel.SetStatusCondition(
        Condition(BackendReady, true, EndpointsReady, ForwardingTo(Address(host, port)), api.oracle.now));
      return host, port, Open, false;
    }

    method FailGate(tunnel: TunnelObject, kind: ConditionType, reason: Reason, message: Message) returns (gate: Gate)
      modifies tunnel
      ensures tunnel.status == WithCondition(old(tunnel.status), Condition(kind, false, reason, message, api.oracle.now))
      ensures gate == Shut(reason, message)
    {
      tunnel.SetStatusCondition(Condition(kind, false, reason, message, api.oracle.now));
      return Shut(reason, message);
    }

    /** The two nested loops over slices and endpoints find a ready endpoint if and only if there is one. */
    method FindReadyEndpoint(service: Key) returns (ready: bool, err: bool)
      ensures err == api.oracle.listSlices
      ensures !err ==> ready == HasReadyEndpoint(api.slices, service)
      ensures !err ==> (ready <==>
        exists k, e :: k in api.slices && k.namespace == service.namespace
          && "kubernetes.io/service-name" in api.slices[k].labels
          && api.slices[k].labels["kubernetes.io/service-name"] == service.name
          && e in api.slices[k].endpoints && (e.ready == None || e.ready == Some(true)))
    {
      ServingEndpoint(api.slices, service);
      var listed := api.ListSlices(service.namespace, service.name);
      if listed.None? { return false, true; }
      var items := listed.value;
      for i := 0 to |items|
        invariant forall s, e :: s in items[..i] && e in s.endpoints ==> !EndpointReady(e)
      {
        var endpoints := items[i].endpoints;
        for j := 0 to |endpoints|
          invariant forall e :: e in endpoints[..j] ==> !EndpointReady(e)
        {
          var flag := endpoints[j].ready;
          if flag.None? || flag.value {
            assert items[i] in items && endpoints[j] in endpoints && EndpointReady(endpoints[j]);
            return true, false;
          }
        }
        assert endpoints[..|endpoints|] == endpoints;
        forall s, e | s in items[..i + 1] && e in s.endpoints ensures !EndpointReady(e) {
          assert s in items[..i] || s == items[i];
        }
      }
      assert items[..|items|] == items;
      return false, false;
    }

    method SetNotReady(tunnel: TunnelObject, phase: Phase, reason: Reason, message: Message)
      modifies tunnel
      ensures tunnel.status == NotReady(old(tunnel.status), phase, reason, message, api.oracle.now)
    {
      tunnel.status := tunnel.status.(phase := phase);
      tunnel.SetStatusCondition(Condition(Ready, false, reason, message, api.oracle.now));
    }

    function AgentConfigFor(tunnel: TunnelObject, host: string, port: int, token: seq<byte>): AgentConfig
      reads tunnel
    {
      AgentConfig(op.image, op.namespace, host, port, tunnel.status.assignedSubdomain,
        tunnel.spec.secret.name, SecretKeyOf(tunnel.spec.secret), op.hashes.token(token))
    }

    /** Stamps the generation and writes the status back when it differs from `original`. */
    method PatchTunnelStatus(tunnel: TunnelObject, original: Status) returns (ok: bool)
      requires tunnel.name in api.tunnels
      modifies tunnel, api`tunnels, api`log
      ensures tunnel.status == old(tunnel.status).(observedGeneration := tunnel.generation)
      ensures if tunnel.status == original
        then ok && api.tunnels == old(api.tunnels) && api.log == old(api.log)
        else
          && ok == (api.oracle.patch == Done)
          && api.log == old(api.log) + [Write.PatchStatus]
          && api.tunnels == (if api.oracle.patch == Refused then old(api.tunnels)
                             else old(api.tunnels)[tunnel.name := old(api.tunnels)[tunnel.name].(status := tunnel.status)])
    {
      tunnel.status := tunnel.status.(observedGeneration := tunnel.generation);
      if tunnel.status == original { return true; }
      ok := api.PatchStatus(tunnel.name, tunnel.status);
    }
  }
}
