/** Whole runs: reconcile passes for any tunnel interleaved with users, the scheduler, kubelet,
    other workloads and manager restarts, and the invariants every reachable state has. */
module Runs {
  import opened Prelude
  import opened TunnelApi
  import opened AgentPod
  import opened Classify
  import opened ClusterState
  import opened DomainResolver
  import opened PassSpec

  /** `image` and `cached` belong to the running manager. `built` records, for every pod ever
      created, the inputs of the pass that created it; `exits` its agent's exit codes. */
  datatype State = State(
    world: World,
    image: string,
    cached: string,
    built: map<nat, BuildInputs>,
    exits: map<nat, seq<int>>)

  datatype Step =
    | Reconcile(tunnel: string, oracle: Oracle)
    | RestartManager(image: string)
    | CreateTunnel(tunnel: string, spec: Spec)
    | EditSpec(tunnel: string, spec: Spec)
    | MarkDeleting(tunnel: string)
    | RemoveTunnel(tunnel: string)
    | SetSecret(key: Key, secret: Option<SecretData>)
    | SetService(key: Key, service: Option<seq<ServicePort>>)
    | SetSlice(key: Key, slice: Option<EndpointSlice>)
    | SchedulePod(key: Key)
    | Kubelet(key: Key, event: KubeletEvent)
    | EvictPod(key: Key)
    | RemovePod(key: Key)

  function OpAt(op: Operator, s: State): Operator {
    op.(image := s.image)
  }

  function ViewAt(op: Operator, s: State, name: string): View {
    Look(op, s.world, s.cached, name)
  }

  function PassAt(op: Operator, s: State, name: string, o: Oracle): Effect {
    Pass(OpAt(op, s), name, ViewAt(op, s, name), o)
  }

  function AfterPass(op: Operator, s: State, name: string, e: Effect, uid: nat): State {
    s.(world := Put(op, s.world, name, e),
       cached := e.cached,
       built := if e.built.Some? then s.built[uid := e.built.value] else s.built,
       exits := if e.built.Some? then s.exits[uid := []] else s.exits)
  }

  function Edited(t: Tunnel, spec: Spec): Tunnel {
    if spec == t.spec then t else t.(spec := spec, generation := t.generation + 1)
  }

  function AgentSteps(pod: Pod, event: KubeletEvent): Pod {
    match KubeletStep(AgentStatus(pod.statuses), event)
    case None => pod
    case Some(a) => pod.(statuses := ReplaceAgent(pod.statuses, a))
  }

  function WithPodAt(s: State, key: Key, pod: Option<Pod>): State {
    s.(world := s.world.(pods := SetKey(s.world.pods, key, pod)))
  }

  function WithTunnelAt(s: State, name: string, t: Option<Tunnel>): State {
    s.(world := s.world.(tunnels := SetKey(s.world.tunnels, name, t)))
  }

  /** A step that is not possible in a state leaves it as it is. */
  function Exec(op: Operator, s: State, step: Step): State {
    match step
    case Reconcile(name, o) => AfterPass(op, s, name, PassAt(op, s, name, o), o.uid)
    case RestartManager(image) => s.(image := image, cached := "")
    case CreateTunnel(name, spec) =>
      if name in s.world.tunnels then s
      else WithTunnelAt(s, name, Some(Tunnel(1, spec, EMPTY_STATUS, false)))
    case EditSpec(name, spec) =>
      if name !in s.world.tunnels then s
      else WithTunnelAt(s, name, Some(Edited(s.world.tunnels[name], spec)))
    case MarkDeleting(name) =>
      if name !in s.world.tunnels then s
      else
        var t := s.world.tunnels[name];
        WithTunnelAt(s, name, Some(t.(deleting := true, generation := t.generation + 1)))
    case RemoveTunnel(name) => WithTunnelAt(s, name, None)
    case SetSecret(key, secret) => s.(world := s.world.(secrets := SetKey(s.world.secrets, key, secret)))
    case SetService(key, service) => s.(world := s.world.(services := SetKey(s.world.services, key, service)))
    case SetSlice(key, slice) => s.(world := s.world.(slices := SetKey(s.world.slices, key, slice)))
    case SchedulePod(key) =>
      if key !in s.world.pods then s
      else WithPodAt(s, key, Some(s.world.pods[key].(scheduled := true)))
    case Kubelet(key, event) =>
      if key !in s.world.pods || !s.world.pods[key].scheduled then s
      else
        var pod := s.world.pods[key];
        var history := if pod.uid in s.exits then s.exits[pod.uid] else [];
        WithPodAt(s, key, Some(AgentSteps(pod, event)))
        .(exits := s.exits[pod.uid := HistoryStep(AgentStatus(pod.statuses), history, event)])
    case EvictPod(key) =>
      if key !in s.world.pods then s
      else WithPodAt(s, key, AfterDelete(s.world.pods[key]))
    case RemovePod(key) => WithPodAt(s, key, None)
  }

  /** The API server never reuses a pod's identity. */
  predicate FreshUid(s: State, step: Step) {
    step.Reconcile? ==> step.oracle.uid !in s.built
  }

  function Run(op: Operator, s: State, steps: seq<Step>): State {
    if steps == [] then s else Exec(op, Run(op, s, steps[..|steps| - 1]), steps[|steps| - 1])
  }

  /** The state before step i of a run. */
  function StateAt(op: Operator, s: State, steps: seq<Step>, i: nat): State
    requires i <= |steps|
  {
    Run(op, s, steps[..i])
  }

  ghost predicate ValidRun(op: Operator, s: State, steps: seq<Step>) {
    forall i :: 0 <= i < |steps| ==> FreshUid(StateAt(op, s, steps, i), steps[i])
  }

  /** Before anyone has created a tunnel. Secrets, Services and slices may be there already. */
  predicate Initial(s: State) {
    s.world.tunnels == map[] && s.world.pods == map[] && s.cached == "" && s.built == map[] && s.exits == map[]
  }

  lemma ValidPrefix(op: Operator, s: State, steps: seq<Step>)
    requires steps != [] && ValidRun(op, s, steps)
    ensures ValidRun(op, s, steps[..|steps| - 1])
    ensures FreshUid(Run(op, s, steps[..|steps| - 1]), steps[|steps| - 1])
  {
    var prefix := steps[..|steps| - 1];
    forall i | 0 <= i < |prefix| ensures FreshUid(StateAt(op, s, prefix, i), prefix[i]) {
      assert prefix[..i] == steps[..i];
      assert FreshUid(StateAt(op, s, steps, i), steps[i]);
    }
    assert FreshUid(StateAt(op, s, steps, |steps| - 1), steps[|steps| - 1]);
  }

  lemma {:induction false} ValidTo(op: Operator, s: State, steps: seq<Step>, i: nat)
    requires i <= |steps| && ValidRun(op, s, steps)
    ensures ValidRun(op, s, steps[..i])
  {
    hide Exec;
    hide FreshUid;
    if i == |steps| {
      assert steps[..i] == steps;
    } else {
      ValidPrefix(op, s, steps);
      ValidTo(op, s, steps[..|steps| - 1], i);
      assert steps[..|steps| - 1][..i] == steps[..i];
    }
  }

  // ---- what a step leaves alone ----

  predicate IsPodStep(step: Step) {
    step.Kubelet? || step.SchedulePod? || step.RemovePod? || step.EvictPod?
  }

  /** Steps of the scheduler, kubelet and whoever removes pods change one pod, and the record of exits. */
  lemma PodStepIsLocal(op: Operator, s: State, step: Step)
    requires IsPodStep(step)
    ensures var r := Exec(op, s, step);
      && r == s.(world := s.world.(pods := r.world.pods), exits := r.exits)
      && forall k :: k != step.key ==> GetKey(r.world.pods, k) == GetKey(s.world.pods, k)
  {
    hide AgentSteps;
    hide HistoryStep;
    hide AfterDelete;
  }

  lemma KubeletStepIs(op: Operator, s: State, key: Key, event: KubeletEvent)
    ensures Exec(op, s, Kubelet(key, event)).world.pods
      == if key in s.world.pods && s.world.pods[key].scheduled
         then s.world.pods[key := AgentSteps(s.world.pods[key], event)]
         else s.world.pods
  {
    hide AgentSteps;
    hide HistoryStep;
  }

  /** The step is its owner's, on this tunnel. */
  predicate IsOwnerStep(step: Step, name: string) {
    (step.CreateTunnel? || step.EditSpec? || step.MarkDeleting? || step.RemoveTunnel?) && step.tunnel == name
  }

  /** Between passes only its owner changes a tunnel. */
  lemma TunnelIsKept(op: Operator, s: State, step: Step, name: string)
    requires !step.Reconcile? && !IsOwnerStep(step, name)
    ensures GetKey(Exec(op, s, step).world.tunnels, name) == GetKey(s.world.tunnels, name)
  {
    if IsPodStep(step) {
      hide Exec;
      PodStepIsLocal(op, s, step);
    }
  }

  // ---- what a status always satisfies ----

  /** Ready is true exactly while the phase is Active, and no condition type occurs twice. */
  predicate Coherent(s: Status) {
    UniqueKinds(s.conditions) && (ConditionIs(s.conditions, Ready, true) <==> s.phase == Active)
  }

  predicate SameButConditions(a: Status, b: Status) {
    a == b.(conditions := a.conditions)
  }

  lemma WithConditionEffect(s: Status, c: Condition)
    ensures var r := WithCondition(s, c);
      && SameButConditions(r, s)
      && FindCondition(r.conditions, c.kind).Some?
      && SameButTime(FindCondition(r.conditions, c.kind).value, c)
      && (forall k :: k != c.kind ==> FindCondition(r.conditions, k) == FindCondition(s.conditions, k))
      && (UniqueKinds(s.conditions) ==> UniqueKinds(r.conditions))
  {
    SetConditionEffect(s.conditions, c);
  }

  /** What the reads of a pass write: never the phase, the URL or the Ready condition; and when
      nothing failed, conditions that say exactly what the gates found. */
  lemma ObserveEffect(op: Operator, v: View, t: Tunnel, o: Oracle)
    ensures var r := Observe(op, v, t, o);
      && r.status.phase == t.status.phase
      && r.status.url == t.status.url
      && r.status.observedGeneration == t.status.observedGeneration
      && r.status.assignedSubdomain == t.spec.subdomain
      && r.status.lastExitCode == t.status.lastExitCode
      && FindCondition(r.status.conditions, Ready) == FindCondition(t.status.conditions, Ready)
      && (UniqueKinds(t.status.conditions) ==> UniqueKinds(r.status.conditions))
      && (r.Observed? ==>
            && r.token == CheckToken(op, v.secrets, t.spec.secret)
            && r.backend == CheckBackend(v.services, v.slices, t.spec.backend)
            && ConditionIs(r.status.conditions, TokenReady, r.token.TokenOk?)
            && ConditionIs(r.status.conditions, BackendReady, r.backend.BackendOk?)
            && (r.backend.BackendOk? ==> r.status.backendAddress == Address(r.backend.host, r.backend.port)))
  {
    hide SetCondition;
    hide FindCondition;
    hide UniqueKinds;
    hide SpecHash;
    hide DesiredPod;
    hide CheckToken;
    hide CheckBackend;
    hide ClassifyPod;
    var withPod := WithPod(t.status.(assignedSubdomain := t.spec.subdomain), v.pod);
    var token := CheckToken(op, v.secrets, t.spec.secret);
    var tokenCondition := TokenCondition(t.spec.secret, token, o.now);
    WithConditionEffect(withPod, tokenCondition);
    var backend := CheckBackend(v.services, v.slices, t.spec.backend);
    WithConditionEffect(WithCondition(withPod, tokenCondition), BackendCondition(backend, o.now));
  }

  /** What a status that is not ready says. */
  lemma NotReadyEffect(s: Status, phase: Phase, reason: Reason, message: Message, now: nat)
    ensures var r := NotReady(s, phase, reason, message, now);
      && r == s.(phase := phase, conditions := r.conditions)
      && ConditionIs(r.conditions, Ready, false) && !ConditionIs(r.conditions, Ready, true)
      && Shows(r.conditions, Ready, false, reason, message)
      && (forall k :: k != Ready ==> FindCondition(r.conditions, k) == FindCondition(s.conditions, k))
      && (UniqueKinds(s.conditions) ==> UniqueKinds(r.conditions))
  {
    hide SetCondition;
    hide FindCondition;
    hide UniqueKinds;
    WithConditionEffect(s.(phase := phase), Condition(Ready, false, reason, message, now));
  }

  /** What a verdict leaves in the status. */
  lemma JudgedEffect(s: Status, verdict: Verdict, code: int, now: nat)
    ensures var r := Judged(s, verdict, code, now);
      && r == s.(phase := if verdict.terminal then Failed else Degraded, lastExitCode := Some(code),
                 lastFailureMessage := verdict.message, conditions := r.conditions)
      && Shows(r.conditions, Ready, false, verdict.reason, verdict.message)
      && (verdict.tokenInvalid ==> Shows(r.conditions, TokenReady, false, verdict.reason, verdict.message))
      && (forall k :: k != Ready && (k == TokenReady ==> !verdict.tokenInvalid) ==>
            FindCondition(r.conditions, k) == FindCondition(s.conditions, k))
      && ConditionIs(r.conditions, Ready, false) && !ConditionIs(r.conditions, Ready, true)
      && (UniqueKinds(s.conditions) ==> UniqueKinds(r.conditions))
  {
    hide WithCondition;
    hide NotReady;
    hide FindCondition;
    hide UniqueKinds;
    var noted := s.(lastExitCode := Some(code), lastFailureMessage := verdict.message);
    var c := Condition(TokenReady, false, verdict.reason, verdict.message, now);
    WithConditionEffect(noted, c);
    var marked := if verdict.tokenInvalid then WithCondition(noted, c) else noted;
    NotReadyEffect(marked, if verdict.terminal then Failed else Degraded, verdict.reason, verdict.message, now);
  }

  /** What an active status says. */
  lemma ActivatedEffect(s: Status, domain: Option<string>, now: nat)
    ensures var r := Activated(s, domain, now);
      && r == s.(phase := Active, lastFailureMessage := NoMessage, url := r.url, conditions := r.conditions)
      && Shows(r.conditions, Ready, true, TunnelActive, TunnelOnline)
      && ConditionIs(r.conditions, Ready, true) && !ConditionIs(r.conditions, Ready, false)
      && (forall k :: k != Ready ==> FindCondition(r.conditions, k) == FindCondition(s.conditions, k))
      && (UniqueKinds(s.conditions) ==> UniqueKinds(r.conditions))
  {
    hide WithCondition;
    hide FindCondition;
    hide UniqueKinds;
    var up := s.(phase := Active, lastFailureMessage := NoMessage);
    var named := if domain.Some? then up.(url := UrlFor(up.assignedSubdomain, domain.value)) else up;
    WithConditionEffect(named, Condition(Ready, true, TunnelActive, TunnelOnline, now));
  }

  /** What carrying out a decision does to the status. */
  lemma CarryEffect(op: Operator, name: string, p: Option<Pod>, cached: string, s: Status, d: Decision, o: Oracle)
    requires d.Replace? || d.Judge? ==> p.Some?
    ensures var b := Carry(op, name, p, cached, s, d, o);
      && (UniqueKinds(s.conditions) ==> UniqueKinds(b.status.conditions))
      && b.status.observedGeneration == s.observedGeneration
      && (b.err && !d.Judge? ==> b.status == s)
      && (!b.err || d.Judge? ==>
            && (b.status.phase == Active <==> d.GoActive?)
            && (b.status.phase == Failed <==> d.Judge? && d.verdict.terminal)
            && b.status.phase != Unset
            && ConditionIs(b.status.conditions, Ready, d.GoActive?)
            && !ConditionIs(b.status.conditions, Ready, !d.GoActive?))
      && (d.GoActive? ==>
            && FindCondition(b.status.conditions, TokenReady) == FindCondition(s.conditions, TokenReady)
            && FindCondition(b.status.conditions, BackendReady) == FindCondition(s.conditions, BackendReady)
            && b.status.backendAddress == s.backendAddress)
  {
    hide NotReady;
    hide Judged;
    hide Activated;
    hide FindCondition;
    hide UniqueKinds;
    hide DesiredPod;
    match d
    case AwaitTermination => NotReadyEffect(s, Degraded, PodPending, PreviousPodTerminating, o.now);
    case RejectOwner =>
    case Build(inputs) =>
      var template := DesiredPod(op.hashes, name, ConfigOf(op, inputs));
      NotReadyEffect(s.(podName := template.name), Pending, PodPending, PodCreatedWaiting, o.now);
    case Replace => NotReadyEffect(s, Pending, PodPending, ConfigurationChanged, o.now);
    case Judge(verdict, code) => JudgedEffect(s, verdict, code, o.now);
    case Hold(reason, message) => NotReadyEffect(s, if p.Some? then Degraded else Pending, reason, message, o.now);
    case GoActive =>
      var (domain, _) := ResolveDomain(op.domainOverride, cached, o.fetch);
      ActivatedEffect(s, domain, o.now);
    case AwaitReady => NotReadyEffect(s, Degraded, PodNotReady, AgentPodNotReady, o.now);
  }

  /** Status coherence, one pass: kept on every path, failing calls included. */
  lemma PassKeepsCoherent(op: Operator, name: string, v: View, o: Oracle)
    requires v.tunnel.Some? ==> Coherent(v.tunnel.value.status)
    ensures var e := Pass(op, name, v, o);
      && (e.tunnel.Some? <==> v.tunnel.Some?)
      && (e.tunnel.Some? ==> Coherent(e.tunnel.value.status))
  {
    hide SetCondition;
    hide FindCondition;
    hide UniqueKinds;
    hide SpecHash;
    hide DesiredPod;
    hide CheckToken;
    hide CheckBackend;
    hide ClassifyPod;
    hide Carry;
    if Acts(v, o) {
      var t := v.tunnel.value;
      ObserveEffect(op, v, t, o);
      var seen := Observe(op, v, t, o);
      if seen.Observed? {
        var d := Decide(op, v.pod, t.spec, seen.token, seen.backend, o.ownerRef);
        CarryEffect(op, name, v.pod, v.cached, seen.status, d, o);
      }
    }
  }

  // ---- the invariant ----

  predicate TunnelFits(t: Tunnel) {
    Coherent(t.status) && t.status.observedGeneration <= t.generation
  }

  predicate TunnelsFit(tunnels: map<string, Tunnel>) {
    forall n :: n in tunnels ==> TunnelFits(tunnels[n])
  }

  /** A pod sits where its owner's name says, was built from the recorded inputs and nothing
      else has touched its template, and its status reflects its agent's history. */
  predicate PodFits(op: Operator, s: State, key: Key, pod: Pod) {
    && pod.uid in s.built
    && pod.uid in s.exits
    && key == PodKey(op, pod.template.owner)
    && pod.template == DesiredPod(op.hashes, pod.template.owner, ConfigOf(op, s.built[pod.uid]))
    && Faithful(AgentStatus(pod.statuses), s.exits[pod.uid])
  }

  predicate PodsFit(op: Operator, s: State) {
    && (forall k :: k in s.world.pods ==> PodFits(op, s, k, s.world.pods[k]))
    && (forall j, k :: j in s.world.pods && k in s.world.pods && s.world.pods[j].uid == s.world.pods[k].uid ==> j == k)
  }

  predicate Inv(op: Operator, s: State) {
    TunnelsFit(s.world.tunnels) && PodsFit(op, s)
  }

  /** Which decisions a pod's presence allows. */
  lemma DecideFits(op: Operator, pod: Option<Pod>, spec: Spec, token: TokenCheck, backend: BackendCheck, ownerFails: bool)
    ensures var d := Decide(op, pod, spec, token, backend, ownerFails);
      && (d.Build? ==> pod.None? && GatesOpen(token, backend) && d.inputs == InputsOf(op, spec, token, backend))
      && (pod.None? ==> d.Build? || d.RejectOwner? || d.Hold?)
      && (d.Replace? ==> GatesOpen(token, backend) && pod.Some?)
      && (d.Judge? ==> pod.Some?)
  {
    hide SpecHash;
    hide ClassifyPod;
    hide RunningAndReady;
  }

  /** The result a decision returns. */
  lemma CarryResult(op: Operator, name: string, p: Option<Pod>, cached: string, s: Status, d: Decision, o: Oracle)
    requires d.Replace? || d.Judge? ==> p.Some?
    ensures var b := Carry(op, name, p, cached, s, d, o);
      && (b.err <==>
            || d.RejectOwner?
            || (d.Build? && o.create != Done)
            || (d.Replace? && o.delete != Done)
            || (d.Judge? && d.verdict.terminal && d.verdict.deletePod && o.delete != Done))
      && (b.err ==> b.requeue == NoRequeue)
      && (!b.err ==>
            && (b.requeue == NoRequeue <==> d.Judge? && d.verdict.terminal)
            && (b.requeue == AfterFiveMinutes <==> d.GoActive?))
      && (d.Judge? && d.verdict.terminal && d.verdict.deletePod ==> b.pod == Deleted(p.value, o.delete))
  {
    hide SetCondition;
    hide DesiredPod;
    hide ResolveDomain;
  }

  /** What carrying out a decision does to the pod. */
  lemma CarryPod(op: Operator, name: string, p: Option<Pod>, cached: string, s: Status, d: Decision, o: Oracle)
    requires d.Replace? || d.Judge? ==> p.Some?
    requires d.Build? ==> p.None?
    requires p.None? ==> d.Build? || d.RejectOwner? || d.Hold?
    ensures var b := Carry(op, name, p, cached, s, d, o);
      && (b.built.Some? <==> b.pod.Some? && p.None?)
      && (b.built.Some? ==>
            && d.Build? && b.built.value == d.inputs && CreatePod in b.writes
            && b.pod == Some(NewPod(o.uid, DesiredPod(op.hashes, name, ConfigOf(op, b.built.value)))))
      && (p.Some? ==> b.pod == p || (DeletePod in b.writes && b.pod == AfterDelete(p.value)))
  {
    hide SetCondition;
    hide DesiredPod;
    hide ResolveDomain;
  }

  /** The three things a pass may do to its pod: leave it, create it, or ask for its deletion. */
  lemma PassPod(op: Operator, name: string, v: View, o: Oracle)
    ensures var e := Pass(op, name, v, o);
      && (e.built.Some? <==> e.pod.Some? && v.pod.None?)
      && (e.built.Some? ==>
            && CreatePod in e.writes
            && e.pod == Some(NewPod(o.uid, DesiredPod(op.hashes, name, ConfigOf(op, e.built.value)))))
      && (v.pod.Some? ==> e.pod == v.pod || (DeletePod in e.writes && e.pod == AfterDelete(v.pod.value)))
  {
    hide Carry;
    hide Decide;
    hide Observe;
    hide DesiredPod;
    if Acts(v, o) {
      var t := v.tunnel.value;
      var seen := Observe(op, v, t, o);
      if seen.Observed? {
        DecideFits(op, v.pod, t.spec, seen.token, seen.backend, o.ownerRef);
        CarryPod(op, name, v.pod, v.cached, seen.status,
          Decide(op, v.pod, t.spec, seen.token, seen.backend, o.ownerRef), o);
      }
    }
  }

  /** The pods still fit when the pod at one key is replaced by a fitting one or removed and the
      records of the others are untouched. */
  lemma OnePodChanges(op: Operator, s: State, r: State, key: Key, p: Option<Pod>)
    requires PodsFit(op, s)
    requires r.world.pods == SetKey(s.world.pods, key, p)
    requires p.Some? ==> PodFits(op, r, key, p.value)
    requires forall k :: k in s.world.pods && k != key ==>
      var uid := s.world.pods[k].uid;
      && (p.Some? ==> p.value.uid != uid)
      && uid in r.built && r.built[uid] == s.built[uid]
      && uid in r.exits && r.exits[uid] == s.exits[uid]
    ensures PodsFit(op, r)
  {
    hide DesiredPod;
    hide Faithful;
    forall k | k in r.world.pods ensures PodFits(op, r, k, r.world.pods[k]) {
      if k != key { assert PodFits(op, s, k, s.world.pods[k]); }
    }
  }

  lemma PassKeepsPodsFit(op: Operator, s: State, name: string, o: Oracle)
    requires PodsFit(op, s) && o.uid !in s.built
    ensures PodsFit(op, Exec(op, s, Reconcile(name, o)))
  {
    hide Pass;
    hide SpecHash;
    hide DesiredPod;
    var v, e, key := ViewAt(op, s, name), PassAt(op, s, name, o), PodKey(op, name);
    PassPod(OpAt(op, s), name, v, o);
    forall k | k in s.world.pods ensures PodFits(op, s, k, s.world.pods[k]) {}
    if e.built.Some? {
      var config := ConfigOf(OpAt(op, s), e.built.value);
      assert config == ConfigOf(op, e.built.value);
      DesiredOwner(op.hashes, name, config);
    }
    OnePodChanges(op, s, Exec(op, s, Reconcile(name, o)), key, e.pod);
  }

  lemma DesiredOwner(h: Hashes, name: string, c: AgentConfig)
    ensures DesiredPod(h, name, c).owner == name
    ensures DesiredPod(h, name, c).name == PodName(name)
  {
    hide SpecHash;
  }

  lemma OneTunnelChanges(tunnels: map<string, Tunnel>, name: string, t: Option<Tunnel>)
    requires TunnelsFit(tunnels) && (t.Some? ==> TunnelFits(t.value))
    ensures TunnelsFit(SetKey(tunnels, name, t))
  {
    hide TunnelFits;
  }

  lemma PassKeepsTunnelsFit(op: Operator, s: State, name: string, o: Oracle)
    requires TunnelsFit(s.world.tunnels)
    ensures TunnelsFit(Exec(op, s, Reconcile(name, o)).world.tunnels)
  {
    hide Coherent;
    hide Body;
    var v, e := ViewAt(op, s, name), PassAt(op, s, name, o);
    PassKeepsCoherent(OpAt(op, s), name, v, o);
    assert e.tunnel.Some? ==> TunnelFits(e.tunnel.value);
    OneTunnelChanges(s.world.tunnels, name, e.tunnel);
  }

  lemma KubeletKeepsPodsFit(op: Operator, s: State, key: Key, event: KubeletEvent)
    requires PodsFit(op, s)
    ensures PodsFit(op, Exec(op, s, Kubelet(key, event)))
  {
    hide DesiredPod;
    hide KubeletStep;
    hide HistoryStep;
    hide Faithful;
    hide ReplaceAgent;
    if key in s.world.pods && s.world.pods[key].scheduled {
      forall k | k in s.world.pods ensures PodFits(op, s, k, s.world.pods[k]) {}
      var pod := s.world.pods[key];
      var a := AgentStatus(pod.statuses);
      assert PodFits(op, s, key, pod);
      KubeletKeepsFaithful(a, s.exits[pod.uid], event);
      if KubeletStep(a, event).Some? {
        ReplaceAgentStatus(pod.statuses, KubeletStep(a, event).value);
      }
      OnePodChanges(op, s, Exec(op, s, Kubelet(key, event)), key, Some(AgentSteps(pod, event)));
    }
  }

  lemma ExecKeepsTunnelsFit(op: Operator, s: State, step: Step)
    requires TunnelsFit(s.world.tunnels)
    ensures TunnelsFit(Exec(op, s, step).world.tunnels)
  {
    hide TunnelsFit;
    hide Pass;
    hide AgentSteps;
    hide HistoryStep;
    match step
    case Reconcile(name, o) => PassKeepsTunnelsFit(op, s, name, o);
    case CreateTunnel(name, spec) =>
      CreatedFits(spec);
      OneTunnelChanges(s.world.tunnels, name, Some(Tunnel(1, spec, EMPTY_STATUS, false)));
    case EditSpec(name, spec) => OwnerKeepsTunnelsFit(op, s, step);
    case MarkDeleting(name) => OwnerKeepsTunnelsFit(op, s, step);
    case RemoveTunnel(name) => OneTunnelChanges(s.world.tunnels, name, None);
    case _ =>
  }

  lemma CreatedFits(spec: Spec)
    ensures TunnelFits(Tunnel(1, spec, EMPTY_STATUS, false))
  {
  }

  lemma OwnerKeepsTunnelsFit(op: Operator, s: State, step: Step)
    requires TunnelsFit(s.world.tunnels)
    requires step.EditSpec? || step.MarkDeleting?
    ensures TunnelsFit(Exec(op, s, step).world.tunnels)
  {
    hide Coherent;
    if step.tunnel in s.world.tunnels {
      var t := s.world.tunnels[step.tunnel];
      assert TunnelFits(t);
      hide TunnelsFit;
      var u := if step.EditSpec? then Edited(t, step.spec) else t.(deleting := true, generation := t.generation + 1);
      OneTunnelChanges(s.world.tunnels, step.tunnel, Some(u));
    }
  }

  lemma SamePodsFit(op: Operator, s: State, r: State)
    requires PodsFit(op, s) && r.world.pods == s.world.pods && r.built == s.built && r.exits == s.exits
    ensures PodsFit(op, r)
  {
    hide DesiredPod;
    hide Faithful;
    assert forall k :: k in r.world.pods ==> PodFits(op, s, k, s.world.pods[k]);
  }

  /** A pod may be gone, or change in nothing that its fit depends on. */
  lemma SamePodOrNone(op: Operator, s: State, r: State, key: Key, p: Option<Pod>)
    requires PodsFit(op, s) && key in s.world.pods
    requires r == WithPodAt(s, key, p)
    requires p.Some? ==>
      var pod := s.world.pods[key];
      p.value.uid == pod.uid && p.value.template == pod.template && p.value.statuses == pod.statuses
    ensures PodsFit(op, r)
  {
    hide DesiredPod;
    hide Faithful;
    hide AgentStatus;
    forall k | k in s.world.pods ensures PodFits(op, s, k, s.world.pods[k]) {}
    OnePodChanges(op, s, r, key, p);
  }

  lemma ScheduleKeepsPodsFit(op: Operator, s: State, key: Key)
    requires PodsFit(op, s)
    ensures PodsFit(op, Exec(op, s, SchedulePod(key)))
  {
    hide PodsFit;
    if key in s.world.pods {
      SamePodOrNone(op, s, Exec(op, s, SchedulePod(key)), key, Some(s.world.pods[key].(scheduled := true)));
    }
  }

  lemma EvictKeepsPodsFit(op: Operator, s: State, key: Key)
    requires PodsFit(op, s)
    ensures PodsFit(op, Exec(op, s, EvictPod(key)))
  {
    hide PodsFit;
    if key in s.world.pods {
      SamePodOrNone(op, s, Exec(op, s, EvictPod(key)), key, AfterDelete(s.world.pods[key]));
    }
  }

  lemma RemoveKeepsPodsFit(op: Operator, s: State, key: Key)
    requires PodsFit(op, s)
    ensures PodsFit(op, Exec(op, s, RemovePod(key)))
  {
    hide PodsFit;
    if key in s.world.pods {
      SamePodOrNone(op, s, Exec(op, s, RemovePod(key)), key, None);
    } else {
      SetGetKey(s.world.pods, key, None, key);
    }
  }

  lemma ExecKeepsPodsFit(op: Operator, s: State, step: Step)
    requires PodsFit(op, s) && FreshUid(s, step)
    ensures PodsFit(op, Exec(op, s, step))
  {
    hide Pass;
    hide DesiredPod;
    hide AgentSteps;
    hide HistoryStep;
    hide Faithful;
    hide Edited;
    match step
    case Reconcile(name, o) => PassKeepsPodsFit(op, s, name, o);
    case Kubelet(key, event) => KubeletKeepsPodsFit(op, s, key, event);
    case SchedulePod(key) => ScheduleKeepsPodsFit(op, s, key);
    case EvictPod(key) => EvictKeepsPodsFit(op, s, key);
    case RemovePod(key) => RemoveKeepsPodsFit(op, s, key);
    case _ => SamePodsFit(op, s, Exec(op, s, step));
  }

  /** Statuses fit in every state of every run, whatever identities the API server gives. */
  lemma {:induction false} RunKeepsTunnelsFit(op: Operator, s: State, steps: seq<Step>)
    requires TunnelsFit(s.world.tunnels)
    ensures TunnelsFit(Run(op, s, steps).world.tunnels)
  {
    hide Exec;
    hide TunnelsFit;
    if steps != [] {
      RunKeepsTunnelsFit(op, s, steps[..|steps| - 1]);
      ExecKeepsTunnelsFit(op, Run(op, s, steps[..|steps| - 1]), steps[|steps| - 1]);
    }
  }

  lemma ExecKeepsInv(op: Operator, s: State, step: Step)
    requires Inv(op, s) && FreshUid(s, step)
    ensures Inv(op, Exec(op, s, step))
  {
    hide Exec;
    ExecKeepsTunnelsFit(op, s, step);
    ExecKeepsPodsFit(op, s, step);
  }

  /** Every reachable state satisfies the invariant. */
  lemma {:induction false} RunKeepsInv(op: Operator, s: State, steps: seq<Step>)
    requires Inv(op, s) && ValidRun(op, s, steps)
    ensures Inv(op, Run(op, s, steps))
  {
    if steps != [] {
      ValidPrefix(op, s, steps);
      RunKeepsInv(op, s, steps[..|steps| - 1]);
      ExecKeepsInv(op, Run(op, s, steps[..|steps| - 1]), steps[|steps| - 1]);
    }
  }
}
