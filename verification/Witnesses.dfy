/** Runs from an empty cluster into the states that the theorems about failures speak of: a sticky
    failure, a pod alive behind it, a lost edit, a verdict of an outdated pod, Active beside another
    subdomain, and an out-of-date URL. */
module Witnesses {
  import opened Prelude
  import opened TunnelApi
  import opened AgentPod
  import opened Classify
  import opened ClusterState
  import opened DomainResolver
  import opened PassSpec
  import opened Runs
  import opened PassFacts
  import opened RunTheorems
  import opened Convergence
  import opened Reachability
  import opened ActiveStatus

  /** The tunnel stands finally failed at generation g with this spec. */
  predicate FailedFor(s: State, name: string, spec: Spec, g: nat) {
    && name in s.world.tunnels
    && var t := s.world.tunnels[name];
      t.spec == spec && t.generation == g && !t.deleting && Sticky(t)
  }

  // ---- an agent exits ----

  /** A node has the pod, kubelet drops the record of earlier containers, and the agent exits. */
  function Exits(key: Key, code: int): seq<Step> {
    [SchedulePod(key), Kubelet(key, Forget), Kubelet(key, Exit(code))]
  }

  function AfterExit(op: Operator, s: State, key: Key, code: int): State {
    Exec(op, Exec(op, Exec(op, s, SchedulePod(key)), Kubelet(key, Forget)), Kubelet(key, Exit(code)))
  }

  lemma AgentForgets(pod: Pod)
    requires AgentStatus(pod.statuses).Some?
    ensures var q := AgentSteps(pod, Forget);
      && AgentStatus(q.statuses) == Some(AgentStatus(pod.statuses).value.(last := None))
      && q == pod.(statuses := q.statuses)
  {
    hide ReplaceAgent;
    ReplaceAgentStatus(pod.statuses, AgentStatus(pod.statuses).value.(last := None));
  }

  lemma AgentStops(pod: Pod, code: int)
    requires AgentStatus(pod.statuses).Some?
    requires var a := AgentStatus(pod.statuses).value; a.state.Running? && a.last.None?
    ensures var q := AgentSteps(pod, Exit(code));
      && ExitOnRecord(q.statuses) == Some(code)
      && q == pod.(statuses := q.statuses)
  {
    hide ReplaceAgent;
    ReplaceAgentStatus(pod.statuses, AgentStatus(pod.statuses).value.(state := Terminated(code), ready := false));
    hide AgentStatus;
  }

  lemma AgentExits(pod: Pod, code: int)
    requires RunningAndReady(pod.statuses)
    ensures var q := AgentSteps(AgentSteps(pod, Forget), Exit(code));
      && ExitOnRecord(q.statuses) == Some(code)
      && q == pod.(statuses := q.statuses)
  {
    hide AgentSteps;
    hide AgentStatus;
    hide ExitOnRecord;
    AgentForgets(pod);
    AgentStops(AgentSteps(pod, Forget), code);
  }

  lemma ExitIsRecorded(op: Operator, s: State, key: Key, code: int)
    requires key in s.world.pods && RunningAndReady(s.world.pods[key].statuses)
    ensures var r := AfterExit(op, s, key, code);
      && r == s.(world := s.world.(pods := r.world.pods), exits := r.exits)
      && key in r.world.pods
      && var p, q := s.world.pods[key], r.world.pods[key];
        q == p.(statuses := q.statuses, scheduled := true) && ExitOnRecord(q.statuses) == Some(code)
  {
    hide AgentSteps;
    hide RunningAndReady;
    hide ExitOnRecord;
    var s1 := Exec(op, s, SchedulePod(key));
    var s2 := Exec(op, s1, Kubelet(key, Forget));
    assert s1.world.pods[key] == s.world.pods[key].(scheduled := true);
    hide Exec;
    PodStepIsLocal(op, s, SchedulePod(key));
    PodStepIsLocal(op, s1, Kubelet(key, Forget));
    PodStepIsLocal(op, s2, Kubelet(key, Exit(code)));
    KubeletStepIs(op, s1, key, Forget);
    KeepsSchedule(s1.world.pods[key], Forget);
    KubeletStepIs(op, s2, key, Exit(code));
    AgentExits(s1.world.pods[key], code);
  }

  lemma KeepsSchedule(pod: Pod, event: KubeletEvent)
    ensures AgentSteps(pod, event).scheduled == pod.scheduled
  {
  }

  lemma ExtendByExit(op: Operator, s: State, steps: seq<Step>, key: Key, code: int)
    requires ValidRun(op, s, steps)
    ensures ValidRun(op, s, steps + Exits(key, code))
    ensures Run(op, s, steps + Exits(key, code)) == AfterExit(op, Run(op, s, steps), key, code)
  {
    hide Exec;
    hide ValidRun;
    hide Run;
    var one := steps + [SchedulePod(key)];
    var two := one + [Kubelet(key, Forget)];
    Extend(op, s, steps, SchedulePod(key));
    Extend(op, s, one, Kubelet(key, Forget));
    Extend(op, s, two, Kubelet(key, Exit(code)));
    assert steps + Exits(key, code) == two + [Kubelet(key, Exit(code))];
  }

  // ---- a pass reads a final exit ----

  lemma DecidesVerdict(op: Operator, pod: Pod, spec: Spec, token: TokenCheck, backend: BackendCheck, code: int)
    requires !pod.terminating && ExitOnRecord(pod.statuses) == Some(code)
    requires GatesOpen(token, backend) ==>
      Lookup(pod.template.annotations, SPEC_HASH_ANNOTATION)
      == SpecHash(op.hashes, ConfigOf(op, InputsOf(op, spec, token, backend)))
    ensures Decide(op, Some(pod), spec, token, backend, false) == Judge(ClassifyExit(code, spec.collision), code)
  {
    hide SpecHash;
    hide ClassifyExit;
    hide ExitOnRecord;
  }

  /** A pass that nothing but its delete request can fail. */
  predicate OnlyDeleteFails(o: Oracle) {
    Faultless(o.(delete := Done))
  }

  /** The pass that makes the failure final. */
  lemma FinalPass(op: Operator, s: State, name: string, spec: Spec, g: nat, o: Oracle, code: int)
    requires OnlyDeleteFails(o) && ClassifyExit(code, spec.collision).terminal
    requires name in s.world.tunnels && s.world.tunnels[name].spec == spec && s.world.tunnels[name].generation == g
    requires !s.world.tunnels[name].deleting && !Sticky(s.world.tunnels[name])
    requires PodKey(op, name) in s.world.pods
    requires var pod := s.world.pods[PodKey(op, name)];
      !pod.terminating && ExitOnRecord(pod.statuses) == Some(code)
    requires var at, v := OpAt(op, s), ViewAt(op, s, name);
      var token, backend := TokenAt(at, v, spec), BackendAt(v, spec);
      GatesOpen(token, backend) ==> UpToDate(op, v.pod.value, InputsOf(at, spec, token, backend))
    ensures var r := Exec(op, s, Reconcile(name, o));
      && SawTerminal(op, s, name, o)
      && FailedFor(r, name, spec, g)
      && GetKey(r.world.pods, PodKey(op, name)) == Deleted(s.world.pods[PodKey(op, name)], o.delete)
      && r.built == s.built
  {
    hide Pass;
    hide Decide;
    hide CheckToken;
    hide CheckBackend;
    hide SpecHash;
    hide ExitOnRecord;
    hide ClassifyExit;
    hide RunningAndReady;
    hide BackendReadFails;
    var at, v, t := OpAt(op, s), ViewAt(op, s, name), s.world.tunnels[name];
    var pod := v.pod.value;
    var token, backend := TokenAt(at, v, spec), BackendAt(v, spec);
    if GatesOpen(token, backend) {
      var wanted := InputsOf(at, spec, token, backend);
      assert ConfigOf(at, wanted) == ConfigOf(op, wanted);
    }
    DecidesVerdict(at, pod, spec, token, backend, code);
    NoReadFails(v.services, spec.backend, o);
    assert JudgesTerminal(at, v, t, o);
    JudgedIsSeen(op, s, name, o);
    hide SawTerminal;
    hide JudgesTerminal;
    TerminalVerdictOutcome(at, name, v, o);
    GenerationPass(at, name, v, o);
    PassPod(at, name, v, o);
    SetGetKey(s.world.tunnels, name, PassAt(op, s, name, o).tunnel, name);
    SetGetKey(s.world.pods, PodKey(op, name), PassAt(op, s, name, o).pod, PodKey(op, name));
  }

  lemma NoReadFails(services: map<Key, seq<ServicePort>>, ref: BackendRef, o: Oracle)
    requires !o.getService && !o.listSlices
    ensures !BackendReadFails(services, ref, o)
  {
  }

  // ---- a sticky failure ----

  /** For every final exit code and every outcome of the delete request: some run from an empty
      cluster ends with the tunnel finally failed. When the delete is refused, the pod stands behind
      the sticky gate and has not been asked to go. */
  lemma FailureIsReachable(op: Operator, s0: State, name: string, spec: Spec, wanted: BuildInputs, o: Oracle,
                           code: int, delete: Call)
    returns (steps: seq<Step>)
    requires Initial(s0) && Faultless(o)
    requires WantedAt(op, Exec(op, s0, CreateTunnel(name, spec)), name) == Some(wanted)
    requires ClassifyExit(code, spec.collision).terminal
    ensures ValidRun(op, s0, steps)
    ensures var s := Run(op, s0, steps);
      && FailedFor(s, name, spec, 1)
      && PodKey(op, name) in s.world.pods
      && s.world.pods[PodKey(op, name)].terminating == (delete != Refused)
  {
    hide Run;
    hide ValidRun;
    hide Exec;
    hide ClassifyExit;
    hide ExitOnRecord;
    hide RunningAndReady;
    hide FailedFor;
    hide SawTerminal;
    hide UpToDate;
    hide CheckToken;
    hide CheckBackend;
    var key := PodKey(op, name);
    var arrival := Arrival(op, s0, name, spec, wanted, o);
    var a := Run(op, s0, arrival);
    ExtendByExit(op, s0, arrival, key, code);
    var exited := arrival + Exits(key, code);
    var s := Run(op, s0, exited);
    ExitIsRecorded(op, a, key, code);
    SameTemplate(op, a.world.pods[key], s.world.pods[key], wanted);
    var uid := FreshNumber(s.built.Keys);
    var last := o.(uid := uid, delete := delete);
    FinalPass(op, s, name, spec, 1, last, code);
    Extend(op, s0, exited, Reconcile(name, last));
    steps := exited + [Reconcile(name, last)];
  }

  /** A run on which an edit is lost: one failed Secret read on the first pass after it. */
  lemma EditLossIsReachable(op: Operator, s0: State, name: string, spec: Spec, wanted: BuildInputs, o: Oracle,
                            code: int, edit: Spec)
    returns (steps: seq<Step>, uid: nat)
    requires Initial(s0) && Faultless(o) && edit != spec
    requires WantedAt(op, Exec(op, s0, CreateTunnel(name, spec)), name) == Some(wanted)
    requires ClassifyExit(code, spec.collision).terminal
    ensures FailedFor(Run(op, s0, steps), name, spec, 1)
    ensures var longer := steps + [EditSpec(name, edit)] + [Reconcile(name, o.(uid := uid, getSecret := true))];
      ValidRun(op, s0, longer) && FailedFor(Run(op, s0, longer), name, edit, 2)
  {
    hide Run;
    hide ValidRun;
    hide ClassifyExit;
    steps := FailureIsReachable(op, s0, name, spec, wanted, o, code, Done);
    var edited := steps + [EditSpec(name, edit)];
    Extend(op, s0, steps, EditSpec(name, edit));
    var s := Run(op, s0, edited);
    assert s == Exec(op, Run(op, s0, steps), EditSpec(name, edit));
    uid := FreshNumber(s.built.Keys);
    var last := o.(uid := uid, getSecret := true);
    Swallows(op, s, name, last);
    hide Exec;
    Extend(op, s0, edited, Reconcile(name, last));
  }

  lemma Swallows(op: Operator, s: State, name: string, o: Oracle)
    requires name in s.world.tunnels && !s.world.tunnels[name].deleting
    requires s.world.tunnels[name].status.phase == Failed && !Sticky(s.world.tunnels[name])
    requires !o.getTunnel && o.getSecret && o.patch == Done
    ensures FailedFor(Exec(op, s, Reconcile(name, o)), name, s.world.tunnels[name].spec, s.world.tunnels[name].generation)
  {
    hide Pass;
    var at, v := OpAt(op, s), ViewAt(op, s, name);
    SecretReadErrorSwallowsEdit(at, name, v, o);
    GenerationPass(at, name, v, o);
    SetGetKey(s.world.tunnels, name, PassAt(op, s, name, o).tunnel, name);
  }

  // ---- a verdict of an outdated pod ----

  lemma WantedIsOfSpec(op: Operator, s: State, name: string)
    ensures WantedAt(op, s, name).Some? ==> WantedAt(op, s, name).value.subdomain == s.world.tunnels[name].spec.subdomain
  {
    hide CheckToken;
    hide CheckBackend;
  }

  /** A run on which the tunnel fails for good at the generation of its new subdomain by an exit of
      the agent that was built for the old one: while the token gate is closed nobody compares. */
  lemma OutdatedVerdictIsReachable(op: Operator, s0: State, name: string, spec: Spec, wanted: BuildInputs, o: Oracle,
                                   code: int, edit: Spec)
    returns (steps: seq<Step>)
    requires Initial(s0) && Faultless(o)
    requires WantedAt(op, Exec(op, s0, CreateTunnel(name, spec)), name) == Some(wanted)
    requires edit.subdomain != spec.subdomain && ClassifyExit(code, edit.collision).terminal
    ensures ValidRun(op, s0, steps)
    ensures var s := Run(op, s0, steps);
      && FailedFor(s, name, edit, 2)
      && PodKey(op, name) in s.world.pods
      && var uid := s.world.pods[PodKey(op, name)].uid;
        uid in s.built && s.built[uid] == wanted && wanted.subdomain == spec.subdomain
  {
    hide Run;
    hide ValidRun;
    hide ClassifyExit;
    hide ExitOnRecord;
    hide RunningAndReady;
    hide FailedFor;
    hide SawTerminal;
    hide UpToDate;
    hide WantedAt;
    hide Exec;
    var key, secret := PodKey(op, name), Key(op.namespace, edit.secret.name);
    var arrival := Arrival(op, s0, name, spec, wanted, o);
    var a := Run(op, s0, arrival);
    WantedIsOfSpec(op, a, name);
    ExtendByExit(op, s0, arrival, key, code);
    var exited := arrival + Exits(key, code);
    ExitIsRecorded(op, a, key, code);
    var b := Run(op, s0, exited);
    Extend(op, s0, exited, EditSpec(name, edit));
    var edited := exited + [EditSpec(name, edit)];
    Extend(op, s0, edited, SetSecret(secret, None));
    var shut := edited + [SetSecret(secret, None)];
    var s := Run(op, s0, shut);
    EditedAndShut(op, b, name, edit, secret);
    var uid := FreshNumber(s.built.Keys);
    var last := o.(uid := uid);
    FinalPass(op, s, name, edit, 2, last, code);
    Extend(op, s0, shut, Reconcile(name, last));
    steps := shut + [Reconcile(name, last)];
  }

  lemma EditedAndShut(op: Operator, b: State, name: string, edit: Spec, secret: Key)
    requires name in b.world.tunnels && b.world.tunnels[name].spec != edit
    requires b.world.tunnels[name].status.phase == Active
    requires secret == Key(op.namespace, edit.secret.name)
    ensures var s := Exec(op, Exec(op, b, EditSpec(name, edit)), SetSecret(secret, None));
      && name in s.world.tunnels
      && s.world.tunnels[name] ==
           b.world.tunnels[name].(spec := edit, generation := b.world.tunnels[name].generation + 1)
      && s.world.pods == b.world.pods && s.built == b.built
      && TokenAt(OpAt(op, s), ViewAt(op, s, name), edit).TokenBad?
  {
  }

  // ---- Active beside another subdomain ----

  /** A run on which Active stands beside a subdomain that the live agent does not claim. */
  lemma OtherClaimIsReachable(op: Operator, s0: State, name: string, spec: Spec, wanted: BuildInputs, o: Oracle, edit: Spec)
    returns (steps: seq<Step>)
    requires Initial(s0) && Faultless(o)
    requires WantedAt(op, Exec(op, s0, CreateTunnel(name, spec)), name) == Some(wanted)
    requires edit.subdomain != spec.subdomain
    ensures ValidRun(op, s0, steps)
    ensures var s := Run(op, s0, steps);
      && name in s.world.tunnels && PodKey(op, name) in s.world.pods
      && s.world.tunnels[name].status.phase == Active
      && s.world.tunnels[name].status.assignedSubdomain == edit.subdomain
      && ClaimOf(s.world.pods[PodKey(op, name)]) == spec.subdomain
  {
    hide Run;
    hide ValidRun;
    hide RunningAndReady;
    hide UpToDate;
    hide WantedAt;
    hide ClaimOf;
    hide Inv;
    hide Pass;
    var arrival := Arrival(op, s0, name, spec, wanted, o);
    var a := Run(op, s0, arrival);
    WantedIsOfSpec(op, a, name);
    InitialInv(op, s0);
    RunKeepsInv(op, s0, arrival);
    ClaimsAsBuilt(op, a, name, wanted);
    Extend(op, s0, arrival, EditSpec(name, edit));
    var edited := arrival + [EditSpec(name, edit)];
    var s := Run(op, s0, edited);
    assert s == Exec(op, a, EditSpec(name, edit));
    var uid := FreshNumber(s.built.Keys);
    var last := o.(uid := uid, getSecret := true);
    ReadErrorKeepsActive(op, s, name, last);
    hide Exec;
    Extend(op, s0, edited, Reconcile(name, last));
    steps := edited + [Reconcile(name, last)];
  }

  lemma ClaimsAsBuilt(op: Operator, s: State, name: string, wanted: BuildInputs)
    requires Inv(op, s) && PodKey(op, name) in s.world.pods
    requires var uid := s.world.pods[PodKey(op, name)].uid; uid in s.built && s.built[uid] == wanted
    ensures ClaimOf(s.world.pods[PodKey(op, name)]) == wanted.subdomain
  {
    hide DesiredPod;
    hide Faithful;
    hide TunnelsFit;
    hide ClaimOf;
    var pod := s.world.pods[PodKey(op, name)];
    assert PodFits(op, s, PodKey(op, name), pod);
    TemplateSays(op.hashes, pod.template.owner, ConfigOf(op, wanted), pod);
  }

  lemma ReadErrorKeepsActive(op: Operator, s: State, name: string, o: Oracle)
    requires name in s.world.tunnels && !s.world.tunnels[name].deleting
    requires s.world.tunnels[name].status.phase == Active
    requires PodKey(op, name) in s.world.pods
    requires !o.getTunnel && o.getSecret && o.patch == Done
    ensures var r := Exec(op, s, Reconcile(name, o));
      && name in r.world.tunnels && PodKey(op, name) in r.world.pods
      && r.world.tunnels[name].status.phase == Active
      && r.world.tunnels[name].status.assignedSubdomain == s.world.tunnels[name].spec.subdomain
      && ClaimOf(r.world.pods[PodKey(op, name)]) == ClaimOf(s.world.pods[PodKey(op, name)])
  {
    hide Pass;
    hide Decide;
    hide ClaimOf;
    hide DialsOf;
    hide CheckToken;
    hide CheckBackend;
    var at, v := OpAt(op, s), ViewAt(op, s, name);
    ActiveAfterPass(at, name, v, o);
    ClaimAndAddress(at, name, v, o);
    EarlyPodSays(at, name, v, o);
    SetGetKey(s.world.tunnels, name, PassAt(op, s, name, o).tunnel, name);
    SetGetKey(s.world.pods, PodKey(op, name), PassAt(op, s, name, o).pod, PodKey(op, name));
  }

  // ---- an out-of-date URL ----

  /** A process without override that has no domain and gets none changes no URL. */
  lemma ColdPass(op: Operator, name: string, v: View, o: Oracle)
    requires op.domainOverride == "" && v.cached == "" && FetchedDomain(o.fetch).None?
    ensures var e := Pass(op, name, v, o);
      && e.cached == ""
      && (v.tunnel.Some? ==> e.tunnel.Some? && e.tunnel.value.status.url == v.tunnel.value.status.url)
  {
    hide FetchedDomain;
    hide CheckToken;
    hide CheckBackend;
    hide Decide;
    hide Observe;
    hide Body;
    hide Carry;
    PassUrl(op, name, v, o);
    if Acts(v, o) {
      var t := v.tunnel.value;
      BodyIs(op, name, v, t, o);
      if Observe(op, v, t, o).Observed? {
        ColdCarry(op, name, v.pod, Observe(op, v, t, o).status, DecisionAt(op, v, t, o), o);
      }
    }
  }

  lemma ColdCarry(op: Operator, name: string, p: Option<Pod>, s: Status, d: Decision, o: Oracle)
    requires d.Replace? || d.Judge? ==> p.Some?
    requires op.domainOverride == "" && FetchedDomain(o.fetch).None?
    ensures Carry(op, name, p, "", s, d, o).cached == ""
  {
    hide SetCondition;
    hide DesiredPod;
    hide FetchedDomain;
  }

  /** So a whole run of such passes changes none. */
  lemma {:induction false} ColdRun(op: Operator, s: State, steps: seq<Step>, name: string, fetch: Fetch)
    requires op.domainOverride == "" && s.cached == "" && FetchedDomain(fetch).None?
    requires OwnSteps(steps, name, fetch) && name in s.world.tunnels
    ensures var r := Run(op, s, steps);
      && r.cached == "" && name in r.world.tunnels
      && r.world.tunnels[name].status.url == s.world.tunnels[name].status.url
  {
    hide Exec;
    hide FetchedDomain;
    if steps != [] {
      var prefix, last := steps[..|steps| - 1], steps[|steps| - 1];
      ColdRun(op, s, prefix, name, fetch);
      ColdStep(op, Run(op, s, prefix), last, name, fetch);
    }
  }

  lemma ColdStep(op: Operator, s: State, step: Step, name: string, fetch: Fetch)
    requires op.domainOverride == "" && s.cached == "" && FetchedDomain(fetch).None?
    requires OwnSteps([step], name, fetch) && name in s.world.tunnels
    ensures var r := Exec(op, s, step);
      && r.cached == "" && name in r.world.tunnels
      && r.world.tunnels[name].status.url == s.world.tunnels[name].status.url
  {
    hide Pass;
    hide FetchedDomain;
    assert [step][0] == step;
    if step.Reconcile? {
      ColdPass(OpAt(op, s), name, ViewAt(op, s, name), step.oracle);
      SetGetKey(s.world.tunnels, name, PassAt(op, s, name, step.oracle).tunnel, name);
    } else {
      hide Exec;
      PodStepIsLocal(op, s, step);
    }
  }

  /** An arrived tunnel stays so through one more pass, which names the URL if a domain is answered. */
  lemma PassOnArrived(op: Operator, s: State, name: string, wanted: BuildInputs, o: Oracle)
    requires OnCourse(op, s, name, wanted) && Arrived(op, s, name, wanted) && Faultless(o)
    requires op.domainOverride == "" && FetchedDomain(o.fetch).Some?
    ensures var r := Exec(op, s, Reconcile(name, o));
      && OnCourse(op, r, name, wanted) && Arrived(op, r, name, wanted)
      && r.world.tunnels[name].spec == s.world.tunnels[name].spec
      && r.cached != "" && r.world.tunnels[name].status.url == UrlFor(s.world.tunnels[name].spec.subdomain, r.cached)
  {
    hide Pass;
    hide WantedAt;
    hide UpToDate;
    hide NothingFinalOnRecord;
    hide RunningAndReady;
    hide FetchedDomain;
    var at, v := OpAt(op, s), ViewAt(op, s, name);
    ArrivedReports(op, s, name, wanted, o);
    hide Completes;
    GenerationPass(at, name, v, o);
    assert Completes(at, name, v, o);
    UrlAfterActive(at, name, v, o);
    FetchedIsSomething(o.fetch);
    SetGetKey(s.world.tunnels, name, PassAt(op, s, name, o).tunnel, name);
    PassKeepsWanted(op, s, name, o);
    hide Exec;
    CalmStep(op, s, Reconcile(name, o), name, wanted);
    RankZero(op, s, name, wanted);
    RankZero(op, Exec(op, s, Reconcile(name, o)), name, wanted);
  }

  lemma FetchedIsSomething(f: Fetch)
    ensures FetchedDomain(f).Some? ==> FetchedDomain(f).value != ""
  {
  }

  /** After a restart and a new subdomain the tunnel is on course to a pod for that subdomain, with
      its old URL and an empty cache. */
  lemma RestartedAndEdited(op: Operator, s: State, name: string, wanted: BuildInputs, subdomain: string)
    requires OnCourse(op, s, name, wanted) && Arrived(op, s, name, wanted)
    requires s.world.tunnels[name].spec.subdomain != subdomain
    ensures var edit := s.world.tunnels[name].spec.(subdomain := subdomain);
      var r := Exec(op, Exec(op, s, RestartManager(s.image)), EditSpec(name, edit));
      && OnCourse(op, r, name, wanted.(subdomain := subdomain))
      && r.cached == "" && r.built == s.built
      && r.world.tunnels[name].spec == edit
      && r.world.tunnels[name].status.url == s.world.tunnels[name].status.url
  {
    hide CheckToken;
    hide CheckBackend;
    hide UpToDate;
    hide NothingFinalOnRecord;
    hide RunningAndReady;
  }

  /** A run on which a completed pass reports Active for a new subdomain under the old one's URL:
      the manager restarts, the subdomain is edited, and the configuration host stays silent. */
  lemma OldUrlIsReachable(op: Operator, s0: State, name: string, spec: Spec, wanted: BuildInputs, o: Oracle,
                          subdomain: string)
    returns (steps: seq<Step>, domain: string)
    requires Initial(s0) && Faultless(o) && op.domainOverride == "" && FetchedDomain(o.fetch).Some?
    requires WantedAt(op, Exec(op, s0, CreateTunnel(name, spec)), name) == Some(wanted)
    requires subdomain != spec.subdomain
    ensures ValidRun(op, s0, steps)
    ensures var s := Run(op, s0, steps);
      var silent := o.(fetch := NoReply);
      && Completes(OpAt(op, s), name, ViewAt(op, s, name), silent)
      && var status := PassAt(op, s, name, silent).tunnel.value.status;
        && status.phase == Active && status.assignedSubdomain == subdomain
        && domain != "" && status.url == UrlFor(spec.subdomain, domain)
  {
    hide Run;
    hide ValidRun;
    hide Exec;
    hide OnCourse;
    hide Arrived;
    hide FetchedDomain;
    hide UrlFor;
    hide Pass;
    hide WantedAt;
    var arrival := Arrival(op, s0, name, spec, wanted, o);
    var a := Run(op, s0, arrival);
    var uid := FreshNumber(a.built.Keys);
    var named := o.(uid := uid);
    PassOnArrived(op, a, name, wanted, named);
    Extend(op, s0, arrival, Reconcile(name, named));
    var online := arrival + [Reconcile(name, named)];
    var b := Run(op, s0, online);
    domain := b.cached;
    var edit := spec.(subdomain := subdomain);
    RestartedAndEdited(op, b, name, wanted, subdomain);
    Extend(op, s0, online, RestartManager(b.image));
    var restarted := online + [RestartManager(b.image)];
    Extend(op, s0, restarted, EditSpec(name, edit));
    var edited := restarted + [EditSpec(name, edit)];
    steps := SilentRoute(op, s0, edited, name, wanted.(subdomain := subdomain), o.(fetch := NoReply));
  }

  lemma SilentRoute(op: Operator, s0: State, before: seq<Step>, name: string, wanted: BuildInputs, o: Oracle)
    returns (steps: seq<Step>)
    requires ValidRun(op, s0, before) && Faultless(o) && o.fetch == NoReply && op.domainOverride == ""
    requires OnCourse(op, Run(op, s0, before), name, wanted) && Run(op, s0, before).cached == ""
    ensures ValidRun(op, s0, steps)
    ensures var s, c := Run(op, s0, steps), Run(op, s0, before);
      && Completes(OpAt(op, s), name, ViewAt(op, s, name), o)
      && var status := PassAt(op, s, name, o).tunnel.value.status;
        && status.phase == Active && status.assignedSubdomain == wanted.subdomain
        && name in c.world.tunnels && status.url == c.world.tunnels[name].status.url
  {
    hide Run;
    hide ValidRun;
    hide Exec;
    hide Arrived;
    hide Pass;
    hide WantedAt;
    hide UpToDate;
    hide NothingFinalOnRecord;
    var c := Run(op, s0, before);
    var rest := RouteToActive(op, c, name, wanted, o);
    RunConcat(op, s0, before, rest);
    steps := before + rest;
    var s := Run(op, s0, steps);
    ColdRun(op, c, rest, name, NoReply);
    ReachesActive(op, c, rest, name, wanted);
    WantedIsOfSpec(op, s, name);
    ArrivedReports(op, s, name, wanted, o);
    ColdPass(OpAt(op, s), name, ViewAt(op, s, name), o);
    ClaimAndAddress(OpAt(op, s), name, ViewAt(op, s, name), o);
  }
}
