/** What holds over whole runs: honest Active, sticky and justified failure, bounded verdict lag,
    coherent status, and a URL that agrees with the claim. */
module RunTheorems {
  import opened Prelude
  import opened Decimal
  import opened TunnelApi
  import opened AgentPod
  import opened Classify
  import opened ClusterState
  import opened DomainResolver
  import opened PassSpec
  import opened GateMeaning
  import opened PodMeaning
  import opened Runs
  import opened PassFacts

  lemma InitialInv(op: Operator, s: State)
    requires Initial(s)
    ensures Inv(op, s)
  {
  }

  // ---- Active is honest ----

  /** Two different payloads with one spec hash. */
  predicate SpecCollision(op: Operator, a: BuildInputs, b: BuildInputs) {
    Payload(ConfigOf(op, a)) != Payload(ConfigOf(op, b))
    && SpecHash(op.hashes, ConfigOf(op, a)) == SpecHash(op.hashes, ConfigOf(op, b))
  }

  /** Two different tokens with one digest. */
  predicate TokenCollision(h: Hashes, a: seq<byte>, b: seq<byte>) {
    a != b && h.token(a) == h.token(b)
  }

  /** Equal hashes mean equal inputs, up to a collision between the two in question. */
  lemma HashDecidesInputs(op: Operator, a: BuildInputs, b: BuildInputs)
    requires SpecHash(op.hashes, ConfigOf(op, a)) == SpecHash(op.hashes, ConfigOf(op, b))
    ensures a == b || SpecCollision(op, a, b) || TokenCollision(op.hashes, a.token, b.token)
  {
    hide Payload;
    if Payload(ConfigOf(op, a)) == Payload(ConfigOf(op, b)) {
      PayloadInjective(ConfigOf(op, a), ConfigOf(op, b));
    }
  }

  /** The inputs are what the cluster, the spec and the manager say now. */
  ghost predicate Current(op: Operator, s: State, spec: Spec, inputs: BuildInputs) {
    && inputs.image == s.image
    && inputs.subdomain == spec.subdomain
    && inputs.secretName == spec.secret.name
    && inputs.secretKey == (if spec.secret.key == "" then "authToken" else spec.secret.key)
    && GivesToken(op.namespace, s.world.secrets, spec.secret, inputs.token)
    && inputs.host == spec.backend.serviceName + "." + spec.backend.namespace + ".svc"
    && GivesBackend(s.world.services, s.world.slices, spec.backend, inputs.port)
  }

  lemma OpenGatesAreCurrent(op: Operator, s: State, name: string, spec: Spec)
    requires var v := ViewAt(op, s, name); GatesOpen(TokenAt(OpAt(op, s), v, spec), BackendAt(v, spec))
    ensures var v := ViewAt(op, s, name);
      Current(op, s, spec, InputsOf(OpAt(op, s), spec, TokenAt(OpAt(op, s), v, spec), BackendAt(v, spec)))
  {
    hide CheckToken;
    hide CheckBackend;
    hide GivesToken;
    hide GivesBackend;
    TokenGateMeaning(OpAt(op, s), s.world.secrets, spec.secret);
    BackendGateMeaning(s.world.services, s.world.slices, spec.backend);
  }

  /** The live pod is the one recorded as built from exactly the inputs `wanted`, which are the
      present ones; its agent is up with a serving endpoint behind it; its own fields say that it runs
      the manager's image, reads the present token and forwards the present subdomain to the present
      Service; and it dials the address the status reports. The only way out is a hash collision
      between what it was built from and `wanted`. */
  ghost predicate Honest(op: Operator, s: State, name: string, e: Effect, pod: Pod, wanted: BuildInputs) {
    && name in s.world.tunnels && e.tunnel.Some?
    && PodKey(op, name) in s.world.pods && s.world.pods[PodKey(op, name)] == pod && e.pod == Some(pod)
    && !pod.terminating && AgentUp(pod.statuses)
    && Current(op, s, s.world.tunnels[name].spec, wanted)
    && HasServingEndpoint(s.world.slices, s.world.tunnels[name].spec.backend)
    && e.tunnel.value.status.backendAddress == wanted.host + ":" + Itoa(wanted.port)
    && pod.uid in s.built
    && (|| SpecCollision(op, s.built[pod.uid], wanted)
        || TokenCollision(op.hashes, s.built[pod.uid].token, wanted.token)
        || (&& s.built[pod.uid] == wanted
            && Serves(pod.template, op.namespace, s.image, s.world, name, s.world.tunnels[name].spec, wanted.token)
            && DialsOf(pod) == e.tunnel.value.status.backendAddress))
  }

  /** What the agent in a pod claims, and the address it forwards to. */
  function ClaimOf(pod: Pod): string {
    Lookup(pod.template.env, "JPRQ_SUBDOMAIN")
  }

  function DialsOf(pod: Pod): string {
    Lookup(pod.template.env, "JPRQ_BACKEND_HOST") + ":" + Lookup(pod.template.env, "JPRQ_BACKEND_PORT")
  }

  lemma TemplateSays(h: Hashes, name: string, c: AgentConfig, pod: Pod)
    requires pod.template == DesiredPod(h, name, c)
    ensures ClaimOf(pod) == c.subdomain && DialsOf(pod) == Address(c.backendHost, c.backendPort)
  {
    hide SpecHash;
  }

  lemma CurrentServes(op: Operator, s: State, name: string, spec: Spec, inputs: BuildInputs)
    requires Current(op, s, spec, inputs)
    ensures Serves(DesiredPod(op.hashes, name, ConfigOf(op, inputs)), op.namespace, s.image, s.world, name, spec,
                   inputs.token)
    ensures HasServingEndpoint(s.world.slices, spec.backend)
  {
    hide DesiredPod;
    hide GivesToken;
    hide HasServingEndpoint;
    hide Serves;
    DesiredServes(op, s.world, name, spec, inputs);
  }

  /** A tunnel's pod that carries the hash of some inputs was built from them, up to a collision. */
  lemma HashedPodIsCurrent(op: Operator, s: State, name: string, wanted: BuildInputs)
    requires Inv(op, s) && PodKey(op, name) in s.world.pods
    requires Lookup(s.world.pods[PodKey(op, name)].template.annotations, SPEC_HASH_ANNOTATION)
             == SpecHash(op.hashes, ConfigOf(op, wanted))
    ensures var pod := s.world.pods[PodKey(op, name)];
      && pod.uid in s.built && pod.uid in s.exits
      && pod.template == DesiredPod(op.hashes, name, ConfigOf(op, s.built[pod.uid]))
      && (s.built[pod.uid] == wanted || SpecCollision(op, s.built[pod.uid], wanted)
          || TokenCollision(op.hashes, s.built[pod.uid].token, wanted.token))
  {
    hide SpecCollision;
    hide TokenCollision;
    hide Faithful;
    hide SpecHash;
    hide DesiredPod;
    var pod := s.world.pods[PodKey(op, name)];
    assert PodFits(op, s, PodKey(op, name), pod);
    PodNameInjective(name, pod.template.owner);
    AnnotationOf(op.hashes, name, ConfigOf(op, s.built[pod.uid]));
    HashDecidesInputs(op, s.built[pod.uid], wanted);
  }

  /** The hash of the live pod agrees with that of the present inputs although the inputs differ. */
  predicate CollisionAt(op: Operator, s: State, name: string) {
    && name in s.world.tunnels && PodKey(op, name) in s.world.pods
    && var v, spec, uid := ViewAt(op, s, name), s.world.tunnels[name].spec, s.world.pods[PodKey(op, name)].uid;
      && GatesOpen(TokenAt(OpAt(op, s), v, spec), BackendAt(v, spec)) && uid in s.built
      && var wanted := InputsOf(OpAt(op, s), spec, TokenAt(OpAt(op, s), v, spec), BackendAt(v, spec));
        SpecCollision(op, s.built[uid], wanted) || TokenCollision(op.hashes, s.built[uid].token, wanted.token)
  }

  /** Over every run, whenever a pass that completes leaves the tunnel Active, it is honest. */
  lemma HonestActive(op: Operator, s0: State, steps: seq<Step>, name: string, o: Oracle)
    returns (pod: Pod, wanted: BuildInputs)
    requires Initial(s0) && ValidRun(op, s0, steps)
    requires var s := Run(op, s0, steps);
      && Completes(OpAt(op, s), name, ViewAt(op, s, name), o)
      && PassAt(op, s, name, o).tunnel.value.status.phase == Active
    ensures var s := Run(op, s0, steps); Honest(op, s, name, PassAt(op, s, name, o), pod, wanted)
  {
    hide Honest;
    hide Pass;
    InitialInv(op, s0);
    RunKeepsInv(op, s0, steps);
    pod, wanted := ActivePod(op, Run(op, s0, steps), name, o);
  }

  lemma ActivePod(op: Operator, s: State, name: string, o: Oracle) returns (pod: Pod, wanted: BuildInputs)
    requires Inv(op, s)
    requires Completes(OpAt(op, s), name, ViewAt(op, s, name), o)
    requires PassAt(op, s, name, o).tunnel.value.status.phase == Active
    ensures Honest(op, s, name, PassAt(op, s, name, o), pod, wanted)
  {
    hide SpecCollision;
    hide TokenCollision;
    hide Current;
    hide Pass;
    hide Inv;
    hide SpecHash;
    hide DesiredPod;
    hide CheckToken;
    hide CheckBackend;
    hide Serves;
    hide HasServingEndpoint;
    hide RunningAndReady;
    hide AgentUp;
    hide DialsOf;
    var v, t := ViewAt(op, s, name), s.world.tunnels[name];
    var at := OpAt(op, s);
    ActivePass(at, name, v, o);
    pod := v.pod.value;
    StatusMeaning(pod.statuses);
    wanted := InputsOf(at, t.spec, TokenAt(at, v, t.spec), BackendAt(v, t.spec));
    OpenGatesAreCurrent(op, s, name, t.spec);
    assert ConfigOf(at, wanted) == ConfigOf(op, wanted);
    HashedPodIsCurrent(op, s, name, wanted);
    CurrentServes(op, s, name, t.spec, wanted);
    TemplateSays(op.hashes, name, ConfigOf(op, s.built[pod.uid]), pod);
  }

  // ---- a final failure is sticky ----

  /** The step can change the tunnel's spec, generation or existence: a real edit, a deletion mark,
      a removal. Re-applying the unchanged spec is not one. */
  predicate Rearms(s: State, step: Step, name: string) {
    match step
    case EditSpec(n, spec) => n == name && n in s.world.tunnels && spec != s.world.tunnels[n].spec
    case MarkDeleting(n) => n == name
    case RemoveTunnel(n) => n == name
    case _ => false
  }

  ghost predicate NeverRearmed(op: Operator, s: State, steps: seq<Step>, name: string) {
    forall i :: 0 <= i < |steps| ==> !Rearms(StateAt(op, s, steps, i), steps[i], name)
  }

  lemma NeverRearmedPrefix(op: Operator, s: State, steps: seq<Step>, name: string)
    requires steps != [] && NeverRearmed(op, s, steps, name)
    ensures NeverRearmed(op, s, steps[..|steps| - 1], name)
    ensures !Rearms(Run(op, s, steps[..|steps| - 1]), steps[|steps| - 1], name)
  {
    hide Rearms;
    hide Exec;
    var prefix := steps[..|steps| - 1];
    forall i | 0 <= i < |prefix| ensures !Rearms(StateAt(op, s, prefix, i), prefix[i], name) {
      assert prefix[..i] == steps[..i];
      assert !Rearms(StateAt(op, s, steps, i), steps[i], name);
    }
    assert !Rearms(StateAt(op, s, steps, |steps| - 1), steps[|steps| - 1], name);
  }

  /** A pass for a sticky tunnel does nothing at all. */
  lemma StickyPass(op: Operator, s: State, name: string, o: Oracle)
    requires name in s.world.tunnels && Sticky(s.world.tunnels[name])
    ensures PassAt(op, s, name, o).writes == []
    ensures Exec(op, s, Reconcile(name, o)) == s
  {
    hide Body;
    PutUnchanged(op, s.world, name, PassAt(op, s, name, o));
  }

  /** A pass for one tunnel leaves another tunnel, and the other tunnel's pod, as they are. */
  lemma PassIsLocal(op: Operator, s: State, name: string, o: Oracle, other: string)
    requires name != other
    ensures var r := Exec(op, s, Reconcile(name, o));
      && GetKey(r.world.tunnels, other) == GetKey(s.world.tunnels, other)
      && GetKey(r.world.pods, PodKey(op, other)) == GetKey(s.world.pods, PodKey(op, other))
      && r.world.secrets == s.world.secrets && r.world.services == s.world.services
      && r.world.slices == s.world.slices && r.image == s.image
  {
    hide Pass;
    if PodName(name) == PodName(other) { PodNameInjective(name, other); }
    var e := PassAt(op, s, name, o);
    SetGetKey(s.world.tunnels, name, e.tunnel, other);
    SetGetKey(s.world.pods, PodKey(op, name), e.pod, PodKey(op, other));
  }

  lemma StickyStep(op: Operator, s: State, step: Step, name: string)
    requires name in s.world.tunnels && Sticky(s.world.tunnels[name])
    requires !Rearms(s, step, name)
    ensures GetKey(Exec(op, s, step).world.tunnels, name) == Some(s.world.tunnels[name])
    ensures step.Reconcile? ==>
      GetKey(Exec(op, s, step).world.pods, PodKey(op, name)) == GetKey(s.world.pods, PodKey(op, name))
  {
    hide Pass;
    if step.Reconcile? {
      if step.tunnel == name { StickyPass(op, s, name, step.oracle); }
      else { PassIsLocal(op, s, step.tunnel, step.oracle, name); }
    } else if !IsOwnerStep(step, name) {
      hide Exec;
      TunnelIsKept(op, s, step, name);
    }
  }

  /** Once a tunnel is Failed for its present generation, then along every continuation in which
      nobody really edits or deletes it, whatever kubelet, other objects and failing API calls do:
      the tunnel never changes, no pass for it writes anything, and no pass for any tunnel
      touches its pod. */
  lemma {:induction false} TerminalIsSticky(op: Operator, s: State, steps: seq<Step>, name: string, n: string, o: Oracle)
    requires name in s.world.tunnels && Sticky(s.world.tunnels[name])
    requires NeverRearmed(op, s, steps, name)
    ensures var r := Run(op, s, steps);
      && GetKey(r.world.tunnels, name) == Some(s.world.tunnels[name])
      && PassAt(op, r, name, o).writes == []
      && GetKey(Exec(op, r, Reconcile(n, o)).world.pods, PodKey(op, name)) == GetKey(r.world.pods, PodKey(op, name))
  {
    hide Exec;
    hide Pass;
    hide Rearms;
    if steps != [] {
      NeverRearmedPrefix(op, s, steps, name);
      TerminalIsSticky(op, s, steps[..|steps| - 1], name, n, o);
      StickyStep(op, Run(op, s, steps[..|steps| - 1]), steps[|steps| - 1], name);
    }
    var r := Run(op, s, steps);
    StickyPass(op, r, name, o);
    NotRearming(r, n, o, name);
    StickyStep(op, r, Reconcile(n, o), name);
  }

  lemma NotRearming(s: State, n: string, o: Oracle, name: string)
    ensures !Rearms(s, Reconcile(n, o), name)
  {
  }

  /** In every reachable state the observed generation is at most the generation, and along every
      continuation that does not remove the tunnel it never decreases. */
  lemma {:induction false} ObservedGenerationGrows(op: Operator, s: State, steps: seq<Step>, name: string)
    requires Inv(op, s) && ValidRun(op, s, steps)
    requires name in s.world.tunnels
    requires forall i :: 0 <= i < |steps| ==> steps[i] != RemoveTunnel(name)
    ensures var r := Run(op, s, steps);
      && name in r.world.tunnels
      && s.world.tunnels[name].status.observedGeneration <= r.world.tunnels[name].status.observedGeneration
      && r.world.tunnels[name].status.observedGeneration <= r.world.tunnels[name].generation
      && s.world.tunnels[name].generation <= r.world.tunnels[name].generation
  {
    hide Exec;
    hide PodsFit;
    hide Coherent;
    if steps != [] {
      var prefix := steps[..|steps| - 1];
      ValidPrefix(op, s, steps);
      ObservedGenerationGrows(op, s, prefix, name);
      RunKeepsInv(op, s, prefix);
      GenerationStep(op, Run(op, s, prefix), steps[|steps| - 1], name);
      ExecKeepsInv(op, Run(op, s, prefix), steps[|steps| - 1]);
    }
  }

  lemma GenerationStep(op: Operator, s: State, step: Step, name: string)
    requires name in s.world.tunnels && step != RemoveTunnel(name)
    requires s.world.tunnels[name].status.observedGeneration <= s.world.tunnels[name].generation
    ensures var r := Exec(op, s, step);
      && name in r.world.tunnels
      && s.world.tunnels[name].status.observedGeneration <= r.world.tunnels[name].status.observedGeneration
      && s.world.tunnels[name].generation <= r.world.tunnels[name].generation
  {
    hide Pass;
    if step.Reconcile? {
      if step.tunnel == name {
        GenerationPass(OpAt(op, s), name, ViewAt(op, s, name), step.oracle);
        SetGetKey(s.world.tunnels, name, PassAt(op, s, name, step.oracle).tunnel, name);
      } else {
        PassIsLocal(op, s, step.tunnel, step.oracle, name);
      }
    } else if !IsOwnerStep(step, name) {
      hide Exec;
      TunnelIsKept(op, s, step, name);
    }
  }

  lemma GenerationPass(op: Operator, name: string, v: View, o: Oracle)
    requires v.tunnel.Some?
    ensures var e, t := Pass(op, name, v, o), v.tunnel.value;
      && e.tunnel.Some?
      && (t.status.observedGeneration <= t.generation ==>
            t.status.observedGeneration <= e.tunnel.value.status.observedGeneration)
      && e.tunnel.value == t.(status := e.tunnel.value.status)
  {
    hide Body;
  }

  // ---- a final failure is justified ----

  /** The agent's record shows an exit that is final under the present spec, its container is
      not running and ready, and the pass has read it. */
  predicate SawTerminal(op: Operator, s: State, name: string, o: Oracle) {
    && name in s.world.tunnels
    && Acts(ViewAt(op, s, name), o)
    && JudgesTerminal(OpAt(op, s), ViewAt(op, s, name), s.world.tunnels[name], o)
    && PodKey(op, name) in s.world.pods
    && var statuses := s.world.pods[PodKey(op, name)].statuses;
      && !RunningAndReady(statuses)
      && ExitOnRecord(statuses).Some?
      && ClassifyExit(ExitOnRecord(statuses).value, s.world.tunnels[name].spec.collision).terminal
  }

  /** Step i is a pass that saw a final exit at generation g. */
  ghost predicate TerminalAt(op: Operator, s: State, steps: seq<Step>, name: string, i: nat, g: nat)
    requires i < |steps|
  {
    && steps[i].Reconcile? && steps[i].tunnel == name
    && SawTerminal(op, StateAt(op, s, steps, i), name, steps[i].oracle)
    && StateAt(op, s, steps, i).world.tunnels[name].generation == g
  }

  predicate FaultlessFor(steps: seq<Step>, name: string) {
    forall i :: 0 <= i < |steps| && steps[i].Reconcile? && steps[i].tunnel == name ==> Faultless(steps[i].oracle)
  }

  lemma JudgedIsSeen(op: Operator, s: State, name: string, o: Oracle)
    requires Acts(ViewAt(op, s, name), o)
    requires JudgesTerminal(OpAt(op, s), ViewAt(op, s, name), s.world.tunnels[name], o)
    ensures SawTerminal(op, s, name, o)
  {
    hide Decide;
    hide CheckToken;
    hide CheckBackend;
    hide ClassifyExit;
    hide ExitOnRecord;
    hide BackendReadFails;
    var v, t := ViewAt(op, s, name), s.world.tunnels[name];
    DecisionMeaning(OpAt(op, s), v.pod, t.spec, TokenAt(OpAt(op, s), v, t.spec), BackendAt(v, t.spec), o.ownerRef);
  }

  lemma FaultlessNeverStops(op: Operator, v: View, t: Tunnel, o: Oracle)
    requires Faultless(o)
    ensures !StopsEarly(op, v, t, o)
  {
    hide CheckToken;
    hide CheckBackend;
    hide SpecHash;
    hide ClassifyPod;
    hide RunningAndReady;
  }

  /** On every run from scratch in which the API never fails the passes for a tunnel: if the tunnel
      is Failed, then one of its passes, at the very generation the status has observed, saw
      a final exit of an agent that was not running and ready. */
  lemma {:induction false} FailedIsJustified(op: Operator, s: State, steps: seq<Step>, name: string)
    requires Initial(s) && FaultlessFor(steps, name)
    requires var r := Run(op, s, steps); name in r.world.tunnels && r.world.tunnels[name].status.phase == Failed
    ensures var g := Run(op, s, steps).world.tunnels[name].status.observedGeneration;
      exists i: nat :: i < |steps| && TerminalAt(op, s, steps, name, i, g)
  {
    hide Exec;
    hide SawTerminal;
    hide Faultless;
    var last := |steps| - 1;
    var prefix := steps[..last];
    var before := Run(op, s, prefix);
    var g := Run(op, s, steps).world.tunnels[name].status.observedGeneration;
    if FailsNow(op, before, steps[last], name, g) {
      assert TerminalAt(op, s, steps, name, last, g);
    } else {
      FailedStep(op, before, steps[last], name);
      FailedIsJustified(op, s, prefix, name);
      var i: nat :| i < |prefix| && TerminalAt(op, s, prefix, name, i, g);
      assert prefix[..i] == steps[..i];
      assert TerminalAt(op, s, steps, name, i, g);
    }
  }

  predicate FailsNow(op: Operator, s: State, step: Step, name: string, g: nat) {
    && step.Reconcile? && step.tunnel == name
    && SawTerminal(op, s, name, step.oracle)
    && s.world.tunnels[name].generation == g
  }

  lemma FailedStep(op: Operator, s: State, step: Step, name: string)
    requires step.Reconcile? && step.tunnel == name ==> Faultless(step.oracle)
    requires var r := Exec(op, s, step); name in r.world.tunnels && r.world.tunnels[name].status.phase == Failed
    ensures var g := Exec(op, s, step).world.tunnels[name].status.observedGeneration;
      || FailsNow(op, s, step, name, g)
      || (&& name in s.world.tunnels && s.world.tunnels[name].status.phase == Failed
          && s.world.tunnels[name].status.observedGeneration == g)
  {
    hide Body;
    hide SawTerminal;
    hide JudgesTerminal;
    hide StopsEarly;
    hide AgentSteps;
    hide HistoryStep;
    if step.Reconcile? && step.tunnel == name {
      hide Pass;
      var v := ViewAt(op, s, name);
      if Acts(v, step.oracle) {
        FailedAfterPass(OpAt(op, s), name, v, step.oracle);
        FaultlessNeverStops(OpAt(op, s), v, v.tunnel.value, step.oracle);
        if JudgesTerminal(OpAt(op, s), v, v.tunnel.value, step.oracle) {
          JudgedIsSeen(op, s, name, step.oracle);
        }
      } else {
        IdlePass(op, s, name, step.oracle);
      }
    } else if step.Reconcile? {
      PassIsLocal(op, s, step.tunnel, step.oracle, name);
    }
  }

  lemma IdlePass(op: Operator, s: State, name: string, o: Oracle)
    requires !Acts(ViewAt(op, s, name), o)
    ensures Exec(op, s, Reconcile(name, o)) == s
  {
    hide Body;
    PutUnchanged(op, s.world, name, PassAt(op, s, name, o));
  }

  /** The exit that the live pod would be judged by is one of its own agent's; and with both gates
      open that pod was built from the present inputs, or hashes collide. With a gate closed nothing
      is said of what it was built from. */
  predicate VerdictIsOwn(op: Operator, s: State, name: string) {
    && name in s.world.tunnels && PodKey(op, name) in s.world.pods
    && var pod, v, spec := s.world.pods[PodKey(op, name)], ViewAt(op, s, name), s.world.tunnels[name].spec;
      && pod.uid in s.built && pod.uid in s.exits
      && ExitOnRecord(pod.statuses).Some? && ExitOnRecord(pod.statuses).value in s.exits[pod.uid]
      && (GatesOpen(TokenAt(OpAt(op, s), v, spec), BackendAt(v, spec)) ==>
            || CollisionAt(op, s, name)
            || s.built[pod.uid] == InputsOf(OpAt(op, s), spec, TokenAt(OpAt(op, s), v, spec), BackendAt(v, spec)))
  }

  /** In every state with the invariant, a final verdict comes from the tunnel's own live agent, and
      from an outdated one only while a gate is closed, unless hashes collide. */
  lemma TerminalVerdictIsOwn(op: Operator, s: State, name: string, o: Oracle)
    requires Inv(op, s) && SawTerminal(op, s, name, o)
    ensures VerdictIsOwn(op, s, name)
  {
    hide Decide;
    hide CheckToken;
    hide CheckBackend;
    hide ClassifyExit;
    hide BackendReadFails;
    hide SpecHash;
    hide DesiredPod;
    hide SpecCollision;
    hide TokenCollision;
    hide TunnelsFit;
    hide RunningAndReady;
    hide AgentStatus;
    var at, v, t := OpAt(op, s), ViewAt(op, s, name), s.world.tunnels[name];
    var token, backend := TokenAt(at, v, t.spec), BackendAt(v, t.spec);
    var pod := s.world.pods[PodKey(op, name)];
    assert PodFits(op, s, PodKey(op, name), pod);
    ExitIsInHistory(pod.statuses, s.exits[pod.uid]);
    hide ExitOnRecord;
    hide Faithful;
    DecisionMeaning(at, v.pod, t.spec, token, backend, o.ownerRef);
    if GatesOpen(token, backend) {
      var wanted := InputsOf(at, t.spec, token, backend);
      assert ConfigOf(at, wanted) == ConfigOf(op, wanted);
      hide Inv;
      HashedPodIsCurrent(op, s, name, wanted);
    }
  }

  lemma ExitIsInHistory(statuses: seq<ContainerStatus>, history: seq<int>)
    requires Faithful(AgentStatus(statuses), history)
    ensures ExitOnRecord(statuses).Some? ==> ExitOnRecord(statuses).value in history
  {
    hide AgentStatus;
  }

  /** FailedIsJustified with the origin of the verdict: on every run from scratch in which the API
      never fails the passes for a tunnel, Failed comes from a pass at the observed generation that
      judged the tunnel's own pod by one of that agent's exits; and if both gates were open then,
      the pod had been built from the inputs of that very moment, up to a hash collision. */
  lemma FailedProvenance(op: Operator, s: State, steps: seq<Step>, name: string)
    requires Initial(s) && ValidRun(op, s, steps) && FaultlessFor(steps, name)
    requires var r := Run(op, s, steps); name in r.world.tunnels && r.world.tunnels[name].status.phase == Failed
    ensures var g := Run(op, s, steps).world.tunnels[name].status.observedGeneration;
      exists i: nat :: i < |steps| && TerminalAt(op, s, steps, name, i, g)
                       && VerdictIsOwn(op, StateAt(op, s, steps, i), name)
  {
    hide Exec;
    hide SawTerminal;
    hide VerdictIsOwn;
    hide Inv;
    hide Faultless;
    FailedIsJustified(op, s, steps, name);
    var g := Run(op, s, steps).world.tunnels[name].status.observedGeneration;
    var i: nat :| i < |steps| && TerminalAt(op, s, steps, name, i, g);
    ValidTo(op, s, steps, i);
    InitialInv(op, s);
    RunKeepsInv(op, s, steps[..i]);
    TerminalVerdictIsOwn(op, StateAt(op, s, steps, i), name, steps[i].oracle);
  }

  /** On every run from scratch, failing API calls included: if the tunnel is Failed, then one of
      its passes, at the generation the status has observed or an earlier one, saw a final exit. */
  lemma {:induction false} FailedHasCause(op: Operator, s: State, steps: seq<Step>, name: string)
    requires Initial(s)
    requires var r := Run(op, s, steps); name in r.world.tunnels && r.world.tunnels[name].status.phase == Failed
    ensures var g := Run(op, s, steps).world.tunnels[name].status.observedGeneration;
      exists i: nat, h: nat :: i < |steps| && h <= g && TerminalAt(op, s, steps, name, i, h)
  {
    hide Exec;
    hide SawTerminal;
    hide TunnelsFit;
    var last := |steps| - 1;
    var prefix := steps[..last];
    var before := Run(op, s, prefix);
    var g := Run(op, s, steps).world.tunnels[name].status.observedGeneration;
    if FailsNow(op, before, steps[last], name, g) {
      assert TerminalAt(op, s, steps, name, last, g);
    } else {
      assert TunnelsFit(before.world.tunnels) by { NoTunnelsFit(op, s); RunKeepsTunnelsFit(op, s, prefix); }
      FailedStepAny(op, before, steps[last], name);
      FailedHasCause(op, s, prefix, name);
      var i: nat, h: nat :| i < |prefix| && h <= before.world.tunnels[name].status.observedGeneration
        && TerminalAt(op, s, prefix, name, i, h);
      assert prefix[..i] == steps[..i];
      assert TerminalAt(op, s, steps, name, i, h);
    }
  }

  lemma NoTunnelsFit(op: Operator, s: State)
    requires Initial(s)
    ensures TunnelsFit(s.world.tunnels)
  {
  }

  /** One step, whatever fails: Failed comes from a final exit seen now, or was there before. */
  lemma FailedStepAny(op: Operator, s: State, step: Step, name: string)
    requires TunnelsFit(s.world.tunnels)
    requires var r := Exec(op, s, step); name in r.world.tunnels && r.world.tunnels[name].status.phase == Failed
    ensures var g := Exec(op, s, step).world.tunnels[name].status.observedGeneration;
      || FailsNow(op, s, step, name, g)
      || (&& name in s.world.tunnels && s.world.tunnels[name].status.phase == Failed
          && s.world.tunnels[name].status.observedGeneration <= g)
  {
    hide Pass;
    hide Coherent;
    hide SawTerminal;
    hide JudgesTerminal;
    hide StopsEarly;
    if step.Reconcile? && step.tunnel == name {
      FailedPassAny(op, s, step.oracle, name);
    } else if step.Reconcile? {
      PassIsLocal(op, s, step.tunnel, step.oracle, name);
    } else if !IsOwnerStep(step, name) {
      hide Exec;
      TunnelIsKept(op, s, step, name);
    }
  }

  lemma FailedPassAny(op: Operator, s: State, o: Oracle, name: string)
    requires name in s.world.tunnels ==>
      s.world.tunnels[name].status.observedGeneration <= s.world.tunnels[name].generation
    requires var r := Exec(op, s, Reconcile(name, o));
      name in r.world.tunnels && r.world.tunnels[name].status.phase == Failed
    ensures var g := Exec(op, s, Reconcile(name, o)).world.tunnels[name].status.observedGeneration;
      || FailsNow(op, s, Reconcile(name, o), name, g)
      || (&& name in s.world.tunnels && s.world.tunnels[name].status.phase == Failed
          && s.world.tunnels[name].status.observedGeneration <= g)
  {
    hide Pass;
    hide SawTerminal;
    hide JudgesTerminal;
    hide StopsEarly;
    var v := ViewAt(op, s, name);
    SetGetKey(s.world.tunnels, name, PassAt(op, s, name, o).tunnel, name);
    if !Acts(v, o) {
      IdlePass(op, s, name, o);
    } else if o.patch == Refused {
      RefusedPatchKeeps(OpAt(op, s), name, v, o);
    } else {
      FailedAfterPass(OpAt(op, s), name, v, o);
      if JudgesTerminal(OpAt(op, s), v, v.tunnel.value, o) { JudgedIsSeen(op, s, name, o); }
    }
  }

  lemma RefusedPatchKeeps(op: Operator, name: string, v: View, o: Oracle)
    requires Acts(v, o) && o.patch == Refused
    ensures Pass(op, name, v, o).tunnel == v.tunnel
  {
    hide Body;
  }

  /** An edit re-arms: the first pass after it, if no call fails, leaves Failed unless it sees a
      final exit again. */
  lemma EditRearms(op: Operator, s: State, name: string, spec: Spec, o: Oracle)
    requires Inv(op, s) && name in s.world.tunnels && !s.world.tunnels[name].deleting
    requires s.world.tunnels[name].spec != spec
    requires Faultless(o)
    ensures var edited := Exec(op, s, EditSpec(name, spec));
      var r := Exec(op, edited, Reconcile(name, o));
      && name in r.world.tunnels
      && (r.world.tunnels[name].status.phase == Failed <==> SawTerminal(op, edited, name, o))
  {
    hide Pass;
    hide StopsEarly;
    hide PodsFit;
    hide Coherent;
    hide Decide;
    hide BackendReadFails;
    var edited := Exec(op, s, EditSpec(name, spec));
    var v := ViewAt(op, edited, name);
    assert Acts(v, o);
    FailedAfterPass(OpAt(op, edited), name, v, o);
    FaultlessNeverStops(OpAt(op, edited), v, v.tunnel.value, o);
    if JudgesTerminal(OpAt(op, edited), v, v.tunnel.value, o) {
      JudgedIsSeen(op, edited, name, o);
    }
  }

  /** Where that fails: one Secret read error on the first pass after an edit of a sticky tunnel,
      and the new spec is never acted on, whatever happens later, until somebody edits again. */
  lemma EditLostForGood(op: Operator, s: State, name: string, spec: Spec, o: Oracle, later: seq<Step>, o2: Oracle)
    requires name in s.world.tunnels && Sticky(s.world.tunnels[name]) && !s.world.tunnels[name].deleting
    requires s.world.tunnels[name].spec != spec
    requires s.world.tunnels[name].status.observedGeneration <= s.world.tunnels[name].generation
    requires !o.getTunnel && o.getSecret && o.patch == Done
    requires NeverRearmed(op, Exec(op, Exec(op, s, EditSpec(name, spec)), Reconcile(name, o)), later, name)
    ensures var r := Run(op, Exec(op, Exec(op, s, EditSpec(name, spec)), Reconcile(name, o)), later);
      && name in r.world.tunnels
      && r.world.tunnels[name].spec == spec
      && Sticky(r.world.tunnels[name])
      && PassAt(op, r, name, o2).writes == []
  {
    hide Pass;
    hide StopsEarly;
    hide JudgesTerminal;
    hide NeverRearmed;
    var edited := Exec(op, s, EditSpec(name, spec));
    var v := ViewAt(op, edited, name);
    assert Acts(v, o);
    SecretReadErrorSwallowsEdit(OpAt(op, edited), name, v, o);
    FailedAfterPass(OpAt(op, edited), name, v, o);
    var swallowed := Exec(op, edited, Reconcile(name, o));
    SetGetKey(edited.world.tunnels, name, PassAt(op, edited, name, o).tunnel, name);
    TerminalIsSticky(op, swallowed, later, name, name, o2);
  }

  // ---- verdicts, conditions ----

  /** In every reachable state, the code a pod would be judged by is one of its agent's last two
      exits: the last one, or the one before exactly while the container is down and still shows
      an earlier record. A running, ready agent is not judged. */
  lemma BoundedVerdictLag(op: Operator, s0: State, steps: seq<Step>, key: Key, collision: Collision)
    requires Initial(s0) && ValidRun(op, s0, steps)
    requires key in Run(op, s0, steps).world.pods
    ensures var s := Run(op, s0, steps);
      var pod := s.world.pods[key];
      && pod.uid in s.exits
      && var history, verdict, a := s.exits[pod.uid], ClassifyPod(pod.statuses, collision), AgentStatus(pod.statuses);
        && (RunningAndReady(pod.statuses) ==> verdict.None?)
        && (verdict.Some? ==>
              && a.Some? && |history| >= 1
              && verdict.value.0 == ClassifyExit(verdict.value.1, collision)
              && (if a.value.state.Terminated? && a.value.last.Some?
                  then |history| >= 2 && verdict.value.1 == history[|history| - 2]
                  else verdict.value.1 == history[|history| - 1]))
  {
    hide Run;
    hide ClassifyPod;
    hide AgentStatus;
    hide RunningAndReady;
    hide ClassifyExit;
    hide DesiredPod;
    hide Faithful;
    ReachablePodFits(op, s0, steps, key);
    var s := Run(op, s0, steps);
    VerdictFromHistory(s.world.pods[key].statuses, s.exits[s.world.pods[key].uid], collision);
  }

  lemma ReachablePodFits(op: Operator, s0: State, steps: seq<Step>, key: Key)
    requires Initial(s0) && ValidRun(op, s0, steps)
    requires key in Run(op, s0, steps).world.pods
    ensures PodFits(op, Run(op, s0, steps), key, Run(op, s0, steps).world.pods[key])
  {
    hide Exec;
    hide PodFits;
    hide TunnelsFit;
    InitialInv(op, s0);
    RunKeepsInv(op, s0, steps);
  }

  /** In every reachable state, after error passes too: Ready is true exactly while the phase is
      Active, and no condition type occurs twice. */
  lemma StatusAlwaysCoherent(op: Operator, s0: State, steps: seq<Step>, name: string)
    requires Initial(s0) && ValidRun(op, s0, steps)
    requires name in Run(op, s0, steps).world.tunnels
    ensures var s := Run(op, s0, steps).world.tunnels[name].status;
      && (ConditionIs(s.conditions, Ready, true) <==> s.phase == Active)
      && (forall i, j :: 0 <= i < j < |s.conditions| ==> s.conditions[i].kind != s.conditions[j].kind)
  {
    hide PodsFit;
    hide UniqueKinds;
    hide FindCondition;
    InitialInv(op, s0);
    RunKeepsInv(op, s0, steps);
    UniqueKindsMeaning(Run(op, s0, steps).world.tunnels[name].status.conditions);
  }

  // ---- the URL ----

  predicate SameProcess(steps: seq<Step>) {
    forall i :: 0 <= i < |steps| ==> !steps[i].RestartManager?
  }

  /** A status that names a URL means that this process knows the domain. */
  predicate UrlNeedsDomain(op: Operator, s: State, name: string) {
    name in s.world.tunnels && s.world.tunnels[name].status.url != "" ==> KnownDomain(op.domainOverride, s.cached) != ""
  }

  lemma PassUrl(op: Operator, name: string, v: View, o: Oracle)
    ensures var e := Pass(op, name, v, o);
      && (KnownDomain(op.domainOverride, v.cached) != "" ==> e.cached == v.cached)
      && (e.tunnel.Some? <==> v.tunnel.Some?)
      && (e.tunnel.Some? && e.tunnel.value.status.url != v.tunnel.value.status.url ==>
            KnownDomain(op.domainOverride, e.cached) != "")
  {
    hide FindCondition;
    hide SetCondition;
    hide UniqueKinds;
    hide CheckToken;
    hide CheckBackend;
    hide Decide;
    hide Observe;
    hide Body;
    hide Carry;
    hide UrlFor;
    if Acts(v, o) {
      var t := v.tunnel.value;
      BodyIs(op, name, v, t, o);
      ObserveEffect(op, v, t, o);
      if Observe(op, v, t, o).Observed? {
        CarryUrl(op, name, v.pod, v.cached, Observe(op, v, t, o).status, DecisionAt(op, v, t, o), o);
      }
    }
  }

  lemma CarryUrl(op: Operator, name: string, p: Option<Pod>, cached: string, s: Status, d: Decision, o: Oracle)
    requires d.Replace? || d.Judge? ==> p.Some?
    ensures var b := Carry(op, name, p, cached, s, d, o);
      && (KnownDomain(op.domainOverride, cached) != "" ==> b.cached == cached)
      && (b.status.url != s.url ==> KnownDomain(op.domainOverride, b.cached) != "")
  {
    hide SetCondition;
    hide DesiredPod;
    hide UrlFor;
  }

  lemma UrlStep(op: Operator, s: State, step: Step, name: string)
    requires UrlNeedsDomain(op, s, name) && !step.RestartManager?
    ensures UrlNeedsDomain(op, Exec(op, s, step), name)
    ensures KnownDomain(op.domainOverride, s.cached) != "" ==> Exec(op, s, step).cached == s.cached
  {
    hide Pass;
    hide AgentSteps;
    hide HistoryStep;
    if step.Reconcile? {
      PassUrl(OpAt(op, s), step.tunnel, ViewAt(op, s, step.tunnel), step.oracle);
      if step.tunnel != name { PassIsLocal(op, s, step.tunnel, step.oracle, name); }
    }
  }

  /** Within one process the domain, once known, never changes, and a URL is only ever shown by a
      process that knows it. */
  lemma {:induction false} UrlRun(op: Operator, s: State, steps: seq<Step>, name: string)
    requires UrlNeedsDomain(op, s, name) && SameProcess(steps)
    ensures UrlNeedsDomain(op, Run(op, s, steps), name)
    ensures KnownDomain(op.domainOverride, s.cached) != "" ==> Run(op, s, steps).cached == s.cached
  {
    hide Exec;
    hide UrlNeedsDomain;
    if steps != [] {
      UrlRun(op, s, steps[..|steps| - 1], name);
      UrlStep(op, Run(op, s, steps[..|steps| - 1]), steps[|steps| - 1], name);
    }
  }

  /** Along every run of one process, for a tunnel whose URL started empty: after each completed
      pass that reports Active, the URL is empty or is the URL of the current subdomain under the
      one domain the process knows, and that domain is what it knows ever after. */
  lemma UrlAgreesWithClaim(op: Operator, s: State, steps: seq<Step>, name: string, o: Oracle, later: seq<Step>)
    requires name in s.world.tunnels ==> s.world.tunnels[name].status.url == ""
    requires SameProcess(steps) && SameProcess(later)
    requires var r := Run(op, s, steps);
      && Completes(OpAt(op, r), name, ViewAt(op, r, name), o)
      && PassAt(op, r, name, o).tunnel.value.status.phase == Active
    ensures var r := Run(op, s, steps);
      var e, spec := PassAt(op, r, name, o), r.world.tunnels[name].spec;
      var url, domain := e.tunnel.value.status.url, KnownDomain(op.domainOverride, e.cached);
      && (url != "" ==> url == UrlFor(spec.subdomain, domain))
      && (domain == "" <==> url == "")
      && (domain != "" ==>
            KnownDomain(op.domainOverride, Run(op, Exec(op, r, Reconcile(name, o)), later).cached) == domain)
  {
    hide Pass;
    UrlRun(op, s, steps, name);
    var r := Run(op, s, steps);
    UrlAfterActive(OpAt(op, r), name, ViewAt(op, r, name), o);
    UrlStep(op, r, Reconcile(name, o), name);
    UrlRun(op, Exec(op, r, Reconcile(name, o)), later, name);
  }
}
