/** One reconcile pass as a decision table: what the pass reads of the cluster, what it decides,
    and what it leaves behind. The classes in Controller.dfy are proved against it. */
module PassSpec {
  import opened Prelude
  import opened Decimal
  import opened TunnelApi
  import opened AgentPod
  import opened Classify
  import opened ClusterState
  import opened DomainResolver

  const DEFAULT_TOKEN_KEY := "authToken"

  /** The manager's settings, fixed for one process. */
  datatype Operator = Operator(image: string, namespace: string, domainOverride: string, hashes: Hashes)

  /** A write request: done; refused by the API server; or applied although the caller is
      told that it failed. */
  datatype Call = Done | Refused | Lost

  /** What the API server and the network do to one pass. A read flag set to true means that
      the call returns an error other than NotFound. `uid` is the identity the API server
      gives to a pod this pass creates. */
  datatype Oracle = Oracle(
    getTunnel: bool, getPod: bool, getSecret: bool, getService: bool, listSlices: bool,
    ownerRef: bool,
    create: Call, delete: Call, patch: Call,
    fetch: Fetch, now: nat, uid: nat)

  predicate Faultless(o: Oracle) {
    && !o.getTunnel && !o.getPod && !o.getSecret && !o.getService && !o.listSlices && !o.ownerRef
    && o.create == Done && o.delete == Done && o.patch == Done
  }

  datatype Requeue = NoRequeue | AfterMinute | AfterFiveMinutes

  datatype Write = CreatePod | DeletePod | PatchStatus

  /** The part of the cluster one pass can see: its own tunnel and pod, and the shared inputs. */
  datatype View = View(
    tunnel: Option<Tunnel>,
    pod: Option<Pod>,
    secrets: map<Key, SecretData>,
    services: map<Key, seq<ServicePort>>,
    slices: map<Key, EndpointSlice>,
    cached: string)

  /** What one pass leaves: its own tunnel and pod, the resolver's cache, the result it returns,
      the write requests it sent, and the inputs of the pod it created, if it created one. */
  datatype Effect = Effect(
    tunnel: Option<Tunnel>,
    pod: Option<Pod>,
    cached: string,
    err: bool,
    requeue: Requeue,
    writes: seq<Write>,
    built: Option<BuildInputs>)

  /** The resolved inputs of an agent pod. */
  datatype BuildInputs = BuildInputs(
    image: string,
    subdomain: string,
    host: string,
    port: int,
    secretName: string,
    secretKey: string,
    token: seq<byte>)

  function ConfigOf(op: Operator, b: BuildInputs): AgentConfig {
    AgentConfig(b.image, op.namespace, b.host, b.port, b.subdomain, b.secretName, b.secretKey,
      op.hashes.token(b.token))
  }

  // ---- the two gates ----

  datatype TokenCheck = TokenOk(token: seq<byte>) | TokenBad(reason: Reason, message: Message)

  datatype BackendCheck = BackendOk(host: string, port: int) | BackendBad(reason: Reason, message: Message)

  function SecretKeyOf(ref: SecretRef): string {
    if ref.key == "" then DEFAULT_TOKEN_KEY else ref.key
  }

  /** The width of the white space character that starts s, or 0. UTF-8, as bytes.TrimSpace
      reads it. */
  function SpaceWidth(s: seq<byte>): (w: nat)
    ensures w <= |s|
  {
    if |s| >= 1 && (s[0] == 0x20 || 0x09 <= s[0] <= 0x0D) then 1
    else if |s| >= 2 && s[0] == 0xC2 && (s[1] == 0x85 || s[1] == 0xA0) then 2
    else if |s| >= 3 && s[0] == 0xE1 && s[1] == 0x9A && s[2] == 0x80 then 3
    else if |s| >= 3 && s[0] == 0xE2 && s[1] == 0x80
            && (0x80 <= s[2] <= 0x8A || s[2] == 0xA8 || s[2] == 0xA9 || s[2] == 0xAF) then 3
    else if |s| >= 3 && s[0] == 0xE2 && s[1] == 0x81 && s[2] == 0x9F then 3
    else if |s| >= 3 && s[0] == 0xE3 && s[1] == 0x80 && s[2] == 0x80 then 3
    else 0
  }

  /** Whether trimming white space leaves nothing. */
  predicate Blank(s: seq<byte>) {
    s == [] || (SpaceWidth(s) > 0 && Blank(s[SpaceWidth(s)..]))
  }

  function CheckToken(op: Operator, secrets: map<Key, SecretData>, ref: SecretRef): TokenCheck {
    var key := Key(op.namespace, ref.name);
    var dataKey := SecretKeyOf(ref);
    if key !in secrets then TokenBad(SecretNotFound, TokenSecretMissing(ref.name, op.namespace))
    else if dataKey !in secrets[key] then TokenBad(SecretKeyNotFound, TokenKeyMissing(ref.name, dataKey))
    else if Blank(secrets[key][dataKey]) then TokenBad(EmptyToken, TokenBlank(ref.name, dataKey))
    else TokenOk(secrets[key][dataKey])
  }

  predicate Declares(p: ServicePort, want: PortRef) {
    match want
    case ByNumber(n) => p.port == n
    case ByName(s) => p.name == s
  }

  /** The number of the first declared port that matches. */
  function ResolvePort(ports: seq<ServicePort>, want: PortRef): (r: Option<int>)
    ensures r.None? <==> forall p :: p in ports ==> !Declares(p, want)
    ensures r.Some? ==> exists i :: 0 <= i < |ports| && Declares(ports[i], want) && ports[i].port == r.value
                          && forall j :: 0 <= j < i ==> !Declares(ports[j], want)
  {
    if ports == [] then None
    else if Declares(ports[0], want) then Some(ports[0].port)
    else
      var r := ResolvePort(ports[1..], want);
      assert r.Some? ==> forall i :: 0 <= i < |ports[1..]| ==> ports[1..][i] == ports[i + 1];
      r
  }

  predicate EndpointReady(e: Endpoint) {
    e.ready != Some(false)
  }

  predicate SliceServes(slice: EndpointSlice, service: string) {
    SERVICE_NAME_LABEL in slice.labels && slice.labels[SERVICE_NAME_LABEL] == service
  }

  /** Some EndpointSlice of the Service has a ready endpoint. */
  predicate HasReadyEndpoint(slices: map<Key, EndpointSlice>, service: Key) {
    exists k :: k in slices && k.namespace == service.namespace && SliceServes(slices[k], service.name)
                && exists e :: e in slices[k].endpoints && EndpointReady(e)
  }

  function ServiceKey(ref: BackendRef): Key {
    Key(ref.namespace, ref.serviceName)
  }

  function ServiceHost(service: Key): string {
    service.name + "." + service.namespace + ".svc"
  }

  function Address(host: string, port: int): string {
    host + ":" + Itoa(port)
  }

  function PortMessage(want: PortRef, service: Key): Message {
    match want
    case ByNumber(n) => PortNumberUndeclared(n, service.namespace, service.name)
    case ByName(s) => PortNameUndeclared(s, service.namespace, service.name)
  }

  function CheckBackend(services: map<Key, seq<ServicePort>>, slices: map<Key, EndpointSlice>, ref: BackendRef)
    : BackendCheck
  {
    var key := ServiceKey(ref);
    if key !in services then BackendBad(ServiceNotFound, ServiceMissing(key.namespace, key.name))
    else match ResolvePort(services[key], ref.port)
      case None => BackendBad(PortNotResolvable, PortMessage(ref.port, key))
      case Some(port) =>
        if HasReadyEndpoint(slices, key) then BackendOk(ServiceHost(key), port)
        else BackendBad(NoReadyEndpoints, EndpointsMissing(key.namespace, key.name))
  }

  /** The slices are listed only for a Service that exists and declares the port. */
  predicate BackendReadFails(services: map<Key, seq<ServicePort>>, ref: BackendRef, o: Oracle) {
    || o.getService
    || (o.listSlices && ServiceKey(ref) in services && ResolvePort(services[ServiceKey(ref)], ref.port).Some?)
  }

  // ---- what the pass has written into its copy of the status before it decides ----

  function TokenCondition(ref: SecretRef, check: TokenCheck, now: nat): Condition {
    match check
    case TokenOk(_) => Condition(TokenReady, true, TokenFound, UsingToken(ref.name, SecretKeyOf(ref)), now)
    case TokenBad(reason, message) => Condition(TokenReady, false, reason, message, now)
  }

  function BackendCondition(check: BackendCheck, now: nat): Condition {
    match check
    case BackendOk(host, port) =>
      Condition(BackendReady, true, EndpointsReady, ForwardingTo(Address(host, port)), now)
    case BackendBad(reason, message) => Condition(BackendReady, false, reason, message, now)
  }

  function WithCondition(s: Status, c: Condition): Status {
    s.(conditions := SetCondition(s.conditions, c))
  }

  function WithPod(s: Status, pod: Option<Pod>): Status {
    match pod
    case None => s.(podName := "")
    case Some(p) =>
      var named := s.(podName := p.template.name);
      match AgentStatus(p.statuses)
      case None => named
      case Some(cs) => named.(restartCount := cs.restartCount)
  }

  datatype Observation =
    | ReadFailed(status: Status)
    | Observed(status: Status, token: TokenCheck, backend: BackendCheck)

  function Observe(op: Operator, v: View, t: Tunnel, o: Oracle): Observation {
    var claimed := t.status.(assignedSubdomain := t.spec.subdomain);
    if o.getPod then ReadFailed(claimed)
    else
      var withPod := WithPod(claimed, v.pod);
      if o.getSecret then ReadFailed(withPod)
      else
        var token := CheckToken(op, v.secrets, t.spec.secret);
        var withToken := WithCondition(withPod, TokenCondition(t.spec.secret, token, o.now));
        if BackendReadFails(v.services, t.spec.backend, o) then ReadFailed(withToken)
        else
          var backend := CheckBackend(v.services, v.slices, t.spec.backend);
          var withBackend := WithCondition(withToken, BackendCondition(backend, o.now));
          Observed(
            if backend.BackendOk? then withBackend.(backendAddress := Address(backend.host, backend.port))
            else withBackend,
            token, backend)
  }

  // ---- the decision ----

  datatype Decision =
    | AwaitTermination
    | RejectOwner
    | Build(inputs: BuildInputs)
    | Replace
    | Judge(verdict: Verdict, code: int)
    | Hold(reason: Reason, message: Message)
    | GoActive
    | AwaitReady

  predicate GatesOpen(token: TokenCheck, backend: BackendCheck) {
    token.TokenOk? && backend.BackendOk?
  }

  function InputsOf(op: Operator, spec: Spec, token: TokenCheck, backend: BackendCheck): BuildInputs
    requires GatesOpen(token, backend)
  {
    BuildInputs(op.image, spec.subdomain, backend.host, backend.port, spec.secret.name, SecretKeyOf(spec.secret),
      token.token)
  }

  function Decide(op: Operator, pod: Option<Pod>, spec: Spec, token: TokenCheck, backend: BackendCheck,
                  ownerFails: bool): Decision
  {
    var open := GatesOpen(token, backend);
    if pod.Some? && pod.value.terminating then AwaitTermination
    else if open && ownerFails then RejectOwner
    else if open && pod.None? then Build(InputsOf(op, spec, token, backend))
    else if open && Lookup(pod.value.template.annotations, SPEC_HASH_ANNOTATION)
                    != SpecHash(op.hashes, ConfigOf(op, InputsOf(op, spec, token, backend))) then Replace
    else if pod.Some? && ClassifyPod(pod.value.statuses, spec.collision).Some? then
      var (verdict, code) := ClassifyPod(pod.value.statuses, spec.collision).value;
      Judge(verdict, code)
    else if token.TokenBad? then Hold(token.reason, token.message)
    else if backend.BackendBad? then Hold(backend.reason, backend.message)
    else if RunningAndReady(pod.value.statuses) then GoActive
    else AwaitReady
  }

  // ---- carrying it out ----

  /** What the body of a pass leaves, before the status is written back. */
  datatype Outcome = Outcome(
    status: Status,
    pod: Option<Pod>,
    cached: string,
    err: bool,
    requeue: Requeue,
    writes: seq<Write>,
    built: Option<BuildInputs>)

  function NotReady(s: Status, phase: Phase, reason: Reason, message: Message, now: nat): Status {
    WithCondition(s.(phase := phase), Condition(Ready, false, reason, message, now))
  }

  function Judged(s: Status, verdict: Verdict, code: int, now: nat): Status {
    var noted := s.(lastExitCode := Some(code), lastFailureMessage := verdict.message);
    var marked := if verdict.tokenInvalid
      then WithCondition(noted, Condition(TokenReady, false, verdict.reason, verdict.message, now))
      else noted;
    NotReady(marked, if verdict.terminal then Failed else Degraded, verdict.reason, verdict.message, now)
  }

  function Activated(s: Status, domain: Option<string>, now: nat): Status {
    var up := s.(phase := Active, lastFailureMessage := NoMessage);
    var named := if domain.Some? then up.(url := UrlFor(up.assignedSubdomain, domain.value)) else up;
    WithCondition(named, Condition(Ready, true, TunnelActive, TunnelOnline, now))
  }

  /** The pod after a delete request. */
  function Deleted(pod: Pod, call: Call): Option<Pod> {
    if call == Refused then Some(pod) else AfterDelete(pod)
  }

  function Carry(op: Operator, name: string, p: Option<Pod>, cached: string, s: Status, d: Decision, o: Oracle): Outcome
    requires d.Replace? || d.Judge? ==> p.Some?
  {
    match d
    case AwaitTermination =>
      Outcome(NotReady(s, Degraded, PodPending, PreviousPodTerminating, o.now),
        p, cached, false, AfterMinute, [], None)
    case RejectOwner =>
      Outcome(s, p, cached, true, NoRequeue, [], None)
    case Build(inputs) =>
      var template := DesiredPod(op.hashes, name, ConfigOf(op, inputs));
      var pod := if o.create == Refused then p else Some(NewPod(o.uid, template));
      var built := if o.create == Refused then None else Some(inputs);
      if o.create != Done then Outcome(s, pod, cached, true, NoRequeue, [CreatePod], built)
      else Outcome(NotReady(s.(podName := template.name), Pending, PodPending, PodCreatedWaiting, o.now),
             pod, cached, false, AfterMinute, [CreatePod], built)
    case Replace =>
      var pod := Deleted(p.value, o.delete);
      if o.delete != Done then Outcome(s, pod, cached, true, NoRequeue, [DeletePod], None)
      else Outcome(NotReady(s, Pending, PodPending, ConfigurationChanged, o.now),
             pod, cached, false, AfterMinute, [DeletePod], None)
    case Judge(verdict, code) =>
      var judged := Judged(s, verdict, code, o.now);
      if !verdict.terminal then Outcome(judged, p, cached, false, AfterMinute, [], None)
      else if !verdict.deletePod then Outcome(judged, p, cached, false, NoRequeue, [], None)
      else
        Outcome(if o.delete != Done then judged else judged.(podName := ""),
          Deleted(p.value, o.delete), cached, o.delete != Done, NoRequeue, [DeletePod], None)
    case Hold(reason, message) =>
      Outcome(NotReady(s, if p.Some? then Degraded else Pending, reason, message, o.now),
        p, cached, false, AfterMinute, [], None)
    case GoActive =>
      var (domain, warmed) := ResolveDomain(op.domainOverride, cached, o.fetch);
      Outcome(Activated(s, domain, o.now), p, warmed, false, AfterFiveMinutes, [], None)
    case AwaitReady =>
      Outcome(NotReady(s, Degraded, PodNotReady, AgentPodNotReady, o.now),
        p, cached, false, AfterMinute, [], None)
  }

  function Body(op: Operator, name: string, v: View, t: Tunnel, o: Oracle): Outcome {
    match Observe(op, v, t, o)
    case ReadFailed(s) => Outcome(s, v.pod, v.cached, true, NoRequeue, [], None)
    case Observed(s, token, backend) =>
      Carry(op, name, v.pod, v.cached, s, Decide(op, v.pod, t.spec, token, backend, o.ownerRef), o)
  }

  // ---- the whole pass ----

  predicate Sticky(t: Tunnel) {
    t.status.phase == Failed && t.status.observedGeneration == t.generation
  }

  /** The pass gets past the early returns. */
  predicate Acts(v: View, o: Oracle) {
    !o.getTunnel && v.tunnel.Some? && !v.tunnel.value.deleting && !Sticky(v.tunnel.value)
  }

  function Stamped(t: Tunnel, s: Status): Status {
    s.(observedGeneration := t.generation)
  }

  function Persist(t: Tunnel, b: Outcome, o: Oracle): Effect {
    var s := Stamped(t, b.status);
    if s == t.status then Effect(Some(t), b.pod, b.cached, b.err, b.requeue, b.writes, b.built)
    else
      Effect(
        Some(if o.patch == Refused then t else t.(status := s)),
        b.pod, b.cached,
        b.err || o.patch != Done,
        if o.patch != Done && !b.err then NoRequeue else b.requeue,
        b.writes + [PatchStatus],
        b.built)
  }

  function Pass(op: Operator, name: string, v: View, o: Oracle): Effect {
    if !Acts(v, o) then Effect(v.tunnel, v.pod, v.cached, o.getTunnel, NoRequeue, [], None)
    else
      var t := v.tunnel.value;
      Persist(t, Body(op, name, v, t, o), o)
  }

  // ---- in a cluster ----

  function PodKey(op: Operator, name: string): Key {
    Key(op.namespace, PodName(name))
  }

  function Look(op: Operator, w: World, cached: string, name: string): View {
    View(GetKey(w.tunnels, name), GetKey(w.pods, PodKey(op, name)), w.secrets, w.services, w.slices, cached)
  }

  function Put(op: Operator, w: World, name: string, e: Effect): World {
    w.(tunnels := SetKey(w.tunnels, name, e.tunnel), pods := SetKey(w.pods, PodKey(op, name), e.pod))
  }

  /** An effect that gives back what was seen leaves the cluster as it was. */
  lemma PutUnchanged(op: Operator, w: World, name: string, e: Effect)
    requires e.tunnel == GetKey(w.tunnels, name) && e.pod == GetKey(w.pods, PodKey(op, name))
    ensures Put(op, w, name, e) == w
  {
    SetGetKey(w.tunnels, name, None, name);
    SetGetKey(w.pods, PodKey(op, name), None, PodKey(op, name));
  }
}
