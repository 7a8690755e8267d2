/** With stable, passing inputs a tunnel that is not sticky-Failed reaches Active. */
module Convergence {
  import opened Prelude
  import opened TunnelApi
  import opened AgentPod
  import opened Classify
  import opened ClusterState
  import opened PassSpec
  import opened Runs
  import opened PassFacts
  import opened RunTheorems

  /** The pod inputs the cluster asks for now; None while a gate is closed or the tunnel is gone. */
  function WantedAt(op: Operator, s: State, name: string): Option<BuildInputs> {
    if name !in s.world.tunnels then None
    else
      var v, spec := ViewAt(op, s, name), s.world.tunnels[name].spec;
      var token, backend := TokenAt(OpAt(op, s), v, spec), BackendAt(v, spec);
      if GatesOpen(token, backend) then Some(InputsOf(OpAt(op, s), spec, token, backend)) else None
  }

  predicate UpToDate(op: Operator, pod: Pod, wanted: BuildInputs) {
    Lookup(pod.template.annotations, SPEC_HASH_ANNOTATION) == SpecHash(op.hashes, ConfigOf(op, wanted))
  }

  /** No exit the agent still shows, present or past, is final. */
  predicate NothingFinalOnRecord(pod: Pod, collision: Collision) {
    var a := AgentStatus(pod.statuses);
    a.Some? ==>
      && (a.value.last.Some? ==> !ClassifyExit(a.value.last.value, collision).terminal)
      && (a.value.state.Terminated? ==> !ClassifyExit(a.value.state.code, collision).terminal)
  }

  /** The tunnel can act, both gates are open for the inputs `wanted`, and if its pod is current
      there is nothing final on its record. */
  predicate OnCourse(op: Operator, s: State, name: string, wanted: BuildInputs) {
    && name in s.world.tunnels
    && WantedAt(op, s, name) == Some(wanted)
    && var t := s.world.tunnels[name];
      && !t.deleting && !Sticky(t)
      && (PodKey(op, name) in s.world.pods ==>
            var pod := s.world.pods[PodKey(op, name)];
            UpToDate(op, pod, wanted) && !pod.terminating ==> NothingFinalOnRecord(pod, t.spec.collision))
  }

  predicate AgentRunning(pod: Pod) {
    AgentStatus(pod.statuses).Some? && AgentStatus(pod.statuses).value.state.Running?
  }

  /** How far the pod is from running and ready: 7 outdated, 6 terminating, 5 absent, 4 unscheduled,
      3 not started, 2 not ready yet, 1 ready. */
  function PodRank(op: Operator, pod: Option<Pod>, wanted: BuildInputs): nat {
    match pod
    case None => 5
    case Some(p) =>
      if p.terminating then 6
      else if !UpToDate(op, p, wanted) then 7
      else if RunningAndReady(p.statuses) then 1
      else if !p.scheduled then 4
      else if AgentRunning(p) then 2
      else 3
  }

  function Rank(op: Operator, s: State, name: string, wanted: BuildInputs): nat {
    var r := PodRank(op, GetKey(s.world.pods, PodKey(op, name)), wanted);
    if r == 1 && name in s.world.tunnels && s.world.tunnels[name].status.phase == Active then 0 else r
  }

  /** A step of a calm environment: no API failures for this tunnel, its inputs and spec keep their
      value, its agent neither exits nor turns unready, and its pod disappears only after it was
      asked to go. Everything else may happen. */
  predicate Calm(op: Operator, s: State, step: Step, name: string) {
    && WantedAt(op, Exec(op, s, step), name) == WantedAt(op, s, name)
    && match step
       case Reconcile(n, o) => n == name ==> Faultless(o)
       case EditSpec(n, spec) => n == name && n in s.world.tunnels ==> spec == s.world.tunnels[n].spec
       case MarkDeleting(n) => n != name
       case RemoveTunnel(n) => n != name
       case Kubelet(key, event) => key == PodKey(op, name) ==> !event.Exit? && !event.BecomeUnready?
       case EvictPod(key) => key != PodKey(op, name)
       case RemovePod(key) => key == PodKey(op, name) ==> key in s.world.pods && s.world.pods[key].terminating
       case _ => true
  }

  /** The step that the present rank is waiting for. */
  predicate Productive(op: Operator, s: State, step: Step, name: string, wanted: BuildInputs) {
    var key := PodKey(op, name);
    match Rank(op, s, name, wanted)
    case 0 => false
    case 1 => step.Reconcile? && step.tunnel == name
    case 2 => step == Kubelet(key, BecomeReady)
    case 3 => step == Kubelet(key, Start)
    case 4 => step == SchedulePod(key)
    case 5 => step.Reconcile? && step.tunnel == name
    case 6 => step == RemovePod(key)
    case _ => step.Reconcile? && step.tunnel == name
  }

  // ---- passes ----

  /** What a faultless pass does to the pod and the phase of a tunnel on course. */
  lemma PassOnCourse(op: Operator, name: string, v: View, o: Oracle, wanted: BuildInputs)
    requires Faultless(o) && Acts(v, o)
    requires var spec := v.tunnel.value.spec;
      && GatesOpen(TokenAt(op, v, spec), BackendAt(v, spec))
      && InputsOf(op, spec, TokenAt(op, v, spec), BackendAt(v, spec)) == wanted
    requires v.pod.Some? && !v.pod.value.terminating && UpToDate(op, v.pod.value, wanted) ==>
      NothingFinalOnRecord(v.pod.value, v.tunnel.value.spec.collision)
    ensures var e := Pass(op, name, v, o);
      && e.tunnel.Some? && e.tunnel.value.spec == v.tunnel.value.spec
      && e.tunnel.value.generation == v.tunnel.value.generation && e.tunnel.value.deleting == v.tunnel.value.deleting
      && e.tunnel.value.status.phase != Failed
      && (match PodRank(op, v.pod, wanted)
          case 5 => e.pod == Some(NewPod(o.uid, DesiredPod(op.hashes, name, ConfigOf(op, wanted))))
          case 7 => e.pod == AfterDelete(v.pod.value)
          case _ => e.pod == v.pod)
      && (PodRank(op, v.pod, wanted) == 1 ==> e.tunnel.value.status.phase == Active)
  {
    hide CheckToken;
    hide CheckBackend;
    hide SpecHash;
    hide DesiredPod;
    hide Decide;
    hide Observe;
    hide Body;
    hide Carry;
    hide UpToDate;
    hide PodRank;
    hide RunningAndReady;
    hide NothingFinalOnRecord;
    var t := v.tunnel.value;
    var d := DecisionAt(op, v, t, o);
    DecisionOnCourse(op, v.pod, t.spec, TokenAt(op, v, t.spec), BackendAt(v, t.spec), wanted);
    FaultlessNeverStops(op, v, t, o);
    BodyIs(op, name, v, t, o);
    BodyEnds(op, name, v, t, o);
    ObserveEffect(op, v, t, o);
    PodOnCourse(op, name, v.pod, v.cached, Observe(op, v, t, o).status, d, o);
    RankMeaning(op, v.pod, wanted);
  }

  lemma RankMeaning(op: Operator, pod: Option<Pod>, wanted: BuildInputs)
    ensures var r := PodRank(op, pod, wanted);
      && 1 <= r <= 7
      && (r == 5 <==> pod.None?)
      && (r == 6 <==> pod.Some? && pod.value.terminating)
      && (r == 7 <==> pod.Some? && !pod.value.terminating && !UpToDate(op, pod.value, wanted))
      && (r == 1 ==> RunningAndReady(pod.value.statuses))
  {
    hide UpToDate;
    hide RunningAndReady;
  }

  lemma PodOnCourse(op: Operator, name: string, p: Option<Pod>, cached: string, s: Status, d: Decision, o: Oracle)
    requires Faultless(o)
    requires d.Replace? || d.Judge? ==> p.Some?
    ensures var b := Carry(op, name, p, cached, s, d, o);
      && (d.Build? ==> b.pod == Some(NewPod(o.uid, DesiredPod(op.hashes, name, ConfigOf(op, d.inputs)))))
      && (d.Replace? ==> b.pod == AfterDelete(p.value))
      && (!d.Build? && !d.Replace? && !(d.Judge? && d.verdict.terminal) ==> b.pod == p)
  {
    hide SetCondition;
    hide DesiredPod;
  }

  lemma DecisionOnCourse(op: Operator, pod: Option<Pod>, spec: Spec, token: TokenCheck, backend: BackendCheck,
                         wanted: BuildInputs)
    requires GatesOpen(token, backend) && InputsOf(op, spec, token, backend) == wanted
    requires pod.Some? && !pod.value.terminating && UpToDate(op, pod.value, wanted) ==>
      NothingFinalOnRecord(pod.value, spec.collision)
    ensures var d, r := Decide(op, pod, spec, token, backend, false), PodRank(op, pod, wanted);
      && (d.Build? <==> r == 5) && (d.Build? ==> d.inputs == wanted)
      && (d.Replace? <==> r == 7)
      && (d.AwaitTermination? <==> r == 6)
      && (d.GoActive? <==> r == 1)
      && (d.Judge? ==> !d.verdict.terminal && pod.Some?)
  {
    hide SpecHash;
    hide ClassifyExit;
  }

  // ---- one step ----

  lemma OwnPassStep(op: Operator, s: State, name: string, o: Oracle, wanted: BuildInputs)
    requires OnCourse(op, s, name, wanted) && Faultless(o)
    requires WantedAt(op, Exec(op, s, Reconcile(name, o)), name) == Some(wanted)
    ensures var r := Exec(op, s, Reconcile(name, o));
      && OnCourse(op, r, name, wanted)
      && Rank(op, r, name, wanted) <= Rank(op, s, name, wanted)
      && (Productive(op, s, Reconcile(name, o), name, wanted) ==> Rank(op, r, name, wanted) < Rank(op, s, name, wanted))
  {
    hide CheckToken;
    hide CheckBackend;
    hide SpecHash;
    hide DesiredPod;
    hide Pass;
    hide RunningAndReady;
    hide AgentRunning;
    hide ClassifyExit;
    var v, at := ViewAt(op, s, name), OpAt(op, s);
    var e := PassAt(op, s, name, o);
    var r := Exec(op, s, Reconcile(name, o));
    AtIsSame(op, s, wanted);
    PassOnCourse(at, name, v, o, wanted);
    SetGetKey(s.world.tunnels, name, e.tunnel, name);
    SetGetKey(s.world.pods, PodKey(op, name), e.pod, PodKey(op, name));
    AnnotationOf(op.hashes, name, ConfigOf(op, wanted));
    AgentOfNewPod(o.uid, DesiredPod(op.hashes, name, ConfigOf(op, wanted)));
  }

  lemma AgentOfNewPod(uid: nat, template: Template)
    ensures AgentStatus(NewPod(uid, template).statuses).None?
  {
  }

  /** The image of the running manager enters only through the inputs. */
  lemma AtIsSame(op: Operator, s: State, wanted: BuildInputs)
    ensures ConfigOf(OpAt(op, s), wanted) == ConfigOf(op, wanted)
    ensures forall pod :: UpToDate(OpAt(op, s), pod, wanted) <==> UpToDate(op, pod, wanted)
    ensures forall pod :: PodRank(OpAt(op, s), pod, wanted) == PodRank(op, pod, wanted)
  {
    hide SpecHash;
    hide AgentStatus;
  }

  lemma KubeletCalm(op: Operator, pod: Pod, event: KubeletEvent, wanted: BuildInputs, collision: Collision)
    requires pod.scheduled && !event.Exit? && !event.BecomeUnready?
    ensures var q := AgentSteps(pod, event);
      && q.template == pod.template && q.terminating == pod.terminating && q.scheduled
      && (NothingFinalOnRecord(pod, collision) ==> NothingFinalOnRecord(q, collision))
      && PodRank(op, Some(q), wanted) <= PodRank(op, Some(pod), wanted)
      && (PodRank(op, Some(pod), wanted) == 3 && event == Start ==> PodRank(op, Some(q), wanted) < 3)
      && (PodRank(op, Some(pod), wanted) == 2 && event == BecomeReady ==> PodRank(op, Some(q), wanted) < 2)
  {
    hide UpToDate;
    hide ClassifyExit;
    hide ReplaceAgent;
    SameTemplate(op, pod, AgentSteps(pod, event), wanted);
    var a := AgentStatus(pod.statuses);
    hide AgentStatus;
    match KubeletStep(a, event)
    case None =>
    case Some(b) =>
      assert b.name == AGENT_CONTAINER;
      ReplaceAgentStatus(pod.statuses, b);
  }

  lemma OwnKubeletStep(op: Operator, s: State, event: KubeletEvent, name: string, wanted: BuildInputs)
    requires OnCourse(op, s, name, wanted) && Calm(op, s, Kubelet(PodKey(op, name), event), name)
    ensures var step := Kubelet(PodKey(op, name), event);
      var r := Exec(op, s, step);
      && OnCourse(op, r, name, wanted)
      && Rank(op, r, name, wanted) <= Rank(op, s, name, wanted)
      && (Productive(op, s, step, name, wanted) ==> Rank(op, r, name, wanted) < Rank(op, s, name, wanted))
  {
    hide WantedAt;
    hide SpecHash;
    hide AgentSteps;
    hide NothingFinalOnRecord;
    hide UpToDate;
    hide PodRank;
    hide Exec;
    var key := PodKey(op, name);
    RankMeaning(op, GetKey(s.world.pods, key), wanted);
    PodStepIsLocal(op, s, Kubelet(key, event));
    KubeletStepIs(op, s, key, event);
    if key in s.world.pods {
      var pod, spec := s.world.pods[key], s.world.tunnels[name].spec;
      if pod.scheduled {
        KubeletCalm(op, pod, event, wanted, spec.collision);
        SameTemplate(op, pod, AgentSteps(pod, event), wanted);
        RankMeaning(op, Some(AgentSteps(pod, event)), wanted);
      } else {
        UnscheduledRank(op, pod, wanted);
      }
    }
  }

  lemma UnscheduledRank(op: Operator, pod: Pod, wanted: BuildInputs)
    requires !pod.scheduled
    ensures PodRank(op, Some(pod), wanted) !in {2, 3}
  {
    hide UpToDate;
    hide RunningAndReady;
    hide AgentRunning;
  }

  lemma PodStep(op: Operator, s: State, step: Step, name: string, wanted: BuildInputs)
    requires OnCourse(op, s, name, wanted) && Calm(op, s, step, name)
    requires IsPodStep(step)
    ensures var r := Exec(op, s, step);
      && OnCourse(op, r, name, wanted)
      && Rank(op, r, name, wanted) <= Rank(op, s, name, wanted)
      && (Productive(op, s, step, name, wanted) ==> Rank(op, r, name, wanted) < Rank(op, s, name, wanted))
  {
    hide OnCourse;
    hide Rank;
    hide Productive;
    hide Exec;
    hide WantedAt;
    if step.key != PodKey(op, name) {
      OtherPodStep(op, s, step, name, wanted);
    } else {
      match step
      case Kubelet(k, event) => OwnKubeletStep(op, s, event, name, wanted);
      case SchedulePod(k) => OwnScheduleStep(op, s, name, wanted);
      case RemovePod(k) => OwnRemoveStep(op, s, name, wanted);
      case EvictPod(k) => assert false;
    }
  }

  /** A step on some other pod. */
  lemma OtherPodStep(op: Operator, s: State, step: Step, name: string, wanted: BuildInputs)
    requires OnCourse(op, s, name, wanted) && Calm(op, s, step, name)
    requires IsPodStep(step) && step.key != PodKey(op, name)
    ensures var r := Exec(op, s, step);
      && OnCourse(op, r, name, wanted)
      && Rank(op, r, name, wanted) == Rank(op, s, name, wanted)
      && !Productive(op, s, step, name, wanted)
  {
    hide WantedAt;
    hide PodRank;
    hide UpToDate;
    hide NothingFinalOnRecord;
    hide Exec;
    PodStepIsLocal(op, s, step);
    assert GetKey(Exec(op, s, step).world.pods, PodKey(op, name)) == GetKey(s.world.pods, PodKey(op, name));
  }

  lemma OwnScheduleStep(op: Operator, s: State, name: string, wanted: BuildInputs)
    requires OnCourse(op, s, name, wanted) && Calm(op, s, SchedulePod(PodKey(op, name)), name)
    ensures var step := SchedulePod(PodKey(op, name));
      var r := Exec(op, s, step);
      && OnCourse(op, r, name, wanted)
      && Rank(op, r, name, wanted) <= Rank(op, s, name, wanted)
      && (Productive(op, s, step, name, wanted) ==> Rank(op, r, name, wanted) < Rank(op, s, name, wanted))
  {
    hide WantedAt;
    hide UpToDate;
    hide NothingFinalOnRecord;
    hide AgentRunning;
    hide RunningAndReady;
    var key := PodKey(op, name);
    if key in s.world.pods {
      var pod := s.world.pods[key];
      Scheduling(pod);
      SameTemplate(op, pod, pod.(scheduled := true), wanted);
    }
  }

  lemma OwnRemoveStep(op: Operator, s: State, name: string, wanted: BuildInputs)
    requires OnCourse(op, s, name, wanted) && Calm(op, s, RemovePod(PodKey(op, name)), name)
    ensures var step := RemovePod(PodKey(op, name));
      var r := Exec(op, s, step);
      && OnCourse(op, r, name, wanted)
      && Rank(op, r, name, wanted) < Rank(op, s, name, wanted)
  {
    hide WantedAt;
    hide UpToDate;
    hide NothingFinalOnRecord;
    hide AgentRunning;
    hide RunningAndReady;
    var key := PodKey(op, name);
    SetGetKey(s.world.pods, key, None, key);
  }

  lemma SameTemplate(op: Operator, pod: Pod, q: Pod, wanted: BuildInputs)
    requires q.template == pod.template
    ensures UpToDate(op, q, wanted) <==> UpToDate(op, pod, wanted)
  {
    hide SpecHash;
  }

  lemma Scheduling(pod: Pod)
    ensures var q := pod.(scheduled := true);
      && (AgentRunning(q) <==> AgentRunning(pod))
      && (forall c :: NothingFinalOnRecord(q, c) <==> NothingFinalOnRecord(pod, c))
  {
    hide ClassifyExit;
    hide AgentStatus;
  }

  /** Steps of others and of the tunnel's owner leave the pod alone. */
  lemma OtherStep(op: Operator, s: State, step: Step, name: string, wanted: BuildInputs)
    requires OnCourse(op, s, name, wanted) && Calm(op, s, step, name)
    requires !(step.Reconcile? && step.tunnel == name)
    requires !IsPodStep(step)
    ensures var r := Exec(op, s, step);
      && OnCourse(op, r, name, wanted)
      && Rank(op, r, name, wanted) <= Rank(op, s, name, wanted)
  {
    hide WantedAt;
    hide Pass;
    hide UpToDate;
    hide NothingFinalOnRecord;
    hide PodRank;
    if step.Reconcile? {
      PassIsLocal(op, s, step.tunnel, step.oracle, name);
    }
  }

  /** Another tunnel's pass is never the productive step, nor is any of its owner. */
  lemma WhoIsProductive(op: Operator, s: State, step: Step, name: string, wanted: BuildInputs)
    requires Productive(op, s, step, name, wanted)
    ensures (step.Reconcile? && step.tunnel == name) || step.Kubelet? || step.SchedulePod? || step.RemovePod?
  {
    hide Rank;
  }

  /** A calm step keeps the tunnel on course, never raises its rank, and lowers it when it is the
      productive one. */
  lemma CalmStep(op: Operator, s: State, step: Step, name: string, wanted: BuildInputs)
    requires OnCourse(op, s, name, wanted) && Calm(op, s, step, name)
    ensures var r := Exec(op, s, step);
      && OnCourse(op, r, name, wanted)
      && Rank(op, r, name, wanted) <= Rank(op, s, name, wanted)
      && (Productive(op, s, step, name, wanted) ==> Rank(op, r, name, wanted) < Rank(op, s, name, wanted))
  {
    hide Exec;
    hide OnCourse;
    hide Calm;
    hide Rank;
    hide Productive;
    if step.Reconcile? && step.tunnel == name {
      OwnPassCalm(op, s, name, step.oracle, wanted);
    } else if IsPodStep(step) {
      PodStep(op, s, step, name, wanted);
    } else {
      OtherStep(op, s, step, name, wanted);
      if Productive(op, s, step, name, wanted) { WhoIsProductive(op, s, step, name, wanted); }
    }
  }

  lemma OwnPassCalm(op: Operator, s: State, name: string, o: Oracle, wanted: BuildInputs)
    requires OnCourse(op, s, name, wanted) && Calm(op, s, Reconcile(name, o), name)
    ensures var step := Reconcile(name, o);
      var r := Exec(op, s, step);
      && OnCourse(op, r, name, wanted)
      && Rank(op, r, name, wanted) <= Rank(op, s, name, wanted)
      && (Productive(op, s, step, name, wanted) ==> Rank(op, r, name, wanted) < Rank(op, s, name, wanted))
  {
    hide Exec;
    hide Rank;
    hide Productive;
    hide WantedAt;
    OwnPassStep(op, s, name, o, wanted);
  }

  // ---- whole runs ----

  ghost predicate CalmRun(op: Operator, s: State, steps: seq<Step>, name: string) {
    forall i :: 0 <= i < |steps| ==> Calm(op, StateAt(op, s, steps, i), steps[i], name)
  }

  /** How many steps of the run were the ones the tunnel was waiting for. */
  function ProductiveSteps(op: Operator, s: State, steps: seq<Step>, name: string, wanted: BuildInputs): nat {
    if steps == [] then 0
    else
      var prefix := steps[..|steps| - 1];
      ProductiveSteps(op, s, prefix, name, wanted)
      + (if Productive(op, Run(op, s, prefix), steps[|steps| - 1], name, wanted) then 1 else 0)
  }

  /** Along every calm run the rank falls by at least the number of productive steps. So a run has
      at most seven of them, and once it has had as many as the rank it started from, the tunnel is
      Active on a current pod that runs and is ready; until then some productive step is possible. */
  lemma {:induction false} ReachesActive(op: Operator, s: State, steps: seq<Step>, name: string, wanted: BuildInputs)
    requires OnCourse(op, s, name, wanted) && CalmRun(op, s, steps, name)
    ensures var r, n := Run(op, s, steps), ProductiveSteps(op, s, steps, name, wanted);
      && OnCourse(op, r, name, wanted)
      && Rank(op, r, name, wanted) + n <= Rank(op, s, name, wanted) <= 7
      && (n >= Rank(op, s, name, wanted) ==> Arrived(op, r, name, wanted))
  {
    hide Exec;
    hide OnCourse;
    hide Calm;
    hide Productive;
    hide Rank;
    if steps != [] {
      var prefix, last := steps[..|steps| - 1], |steps| - 1;
      forall i | 0 <= i < |prefix| ensures Calm(op, StateAt(op, s, prefix, i), prefix[i], name) {
        assert prefix[..i] == steps[..i];
        assert Calm(op, StateAt(op, s, steps, i), steps[i], name);
      }
      ReachesActive(op, s, prefix, name, wanted);
      assert Calm(op, StateAt(op, s, steps, last), steps[last], name);
      CalmStep(op, Run(op, s, prefix), steps[last], name, wanted);
    }
    RankBound(op, s, name, wanted);
    RankZero(op, Run(op, s, steps), name, wanted);
  }

  predicate Arrived(op: Operator, s: State, name: string, wanted: BuildInputs) {
    && name in s.world.tunnels && s.world.tunnels[name].status.phase == Active
    && PodKey(op, name) in s.world.pods
    && var pod := s.world.pods[PodKey(op, name)];
      !pod.terminating && UpToDate(op, pod, wanted) && RunningAndReady(pod.statuses)
  }

  lemma RankBound(op: Operator, s: State, name: string, wanted: BuildInputs)
    ensures Rank(op, s, name, wanted) <= 7
  {
    hide UpToDate;
    hide RunningAndReady;
  }

  lemma RankZero(op: Operator, s: State, name: string, wanted: BuildInputs)
    ensures Rank(op, s, name, wanted) == 0 <==> Arrived(op, s, name, wanted)
  {
    hide UpToDate;
  }

  /** Until the tunnel has arrived there is a calm step that lowers its rank. */
  lemma ProductiveStepExists(op: Operator, s: State, name: string, wanted: BuildInputs, o: Oracle) returns (step: Step)
    requires OnCourse(op, s, name, wanted) && Rank(op, s, name, wanted) > 0
    requires Faultless(o)
    ensures Calm(op, s, step, name) && Productive(op, s, step, name, wanted)
    ensures step == Reconcile(name, o) || IsPodStep(step)
    ensures Rank(op, Exec(op, s, step), name, wanted) < Rank(op, s, name, wanted)
  {
    hide Exec;
    hide Productive;
    hide OnCourse;
    hide Calm;
    step := Awaited(op, s, name, wanted, o);
    AwaitedIsProductive(op, s, name, wanted, o);
    assert Calm(op, s, step, name) by { AwaitedIsCalm(op, s, name, wanted, o); }
    CalmStep(op, s, step, name, wanted);
  }

  /** The step a tunnel short of Active is waiting for. */
  function Awaited(op: Operator, s: State, name: string, wanted: BuildInputs, o: Oracle): (step: Step)
    ensures step == Reconcile(name, o) || IsPodStep(step)
  {
    var key := PodKey(op, name);
    var rank := Rank(op, s, name, wanted);
    if rank == 2 then Kubelet(key, BecomeReady)
    else if rank == 3 then Kubelet(key, Start)
    else if rank == 4 then SchedulePod(key)
    else if rank == 6 then RemovePod(key)
    else Reconcile(name, o)
  }

  lemma AwaitedIsProductive(op: Operator, s: State, name: string, wanted: BuildInputs, o: Oracle)
    requires Rank(op, s, name, wanted) > 0
    ensures Productive(op, s, Awaited(op, s, name, wanted, o), name, wanted)
  {
    hide Rank;
    RankBound(op, s, name, wanted);
  }

  lemma AwaitedIsCalm(op: Operator, s: State, name: string, wanted: BuildInputs, o: Oracle)
    requires Faultless(o)
    ensures Calm(op, s, Awaited(op, s, name, wanted, o), name)
  {
    hide WantedAt;
    hide PodRank;
    hide Exec;
    var key, step := PodKey(op, name), Awaited(op, s, name, wanted, o);
    RankMeaning(op, GetKey(s.world.pods, key), wanted);
    if step.Reconcile? {
      PassKeepsWanted(op, s, name, o);
    } else {
      PodStepKeepsWanted(op, s, step, name);
    }
  }

  lemma PodStepKeepsWanted(op: Operator, s: State, step: Step, name: string)
    requires IsPodStep(step)
    ensures WantedAt(op, Exec(op, s, step), name) == WantedAt(op, s, name)
  {
    hide CheckToken;
    hide CheckBackend;
    hide Exec;
    PodStepIsLocal(op, s, step);
  }

  lemma PassKeepsWanted(op: Operator, s: State, name: string, o: Oracle)
    ensures WantedAt(op, Exec(op, s, Reconcile(name, o)), name) == WantedAt(op, s, name)
  {
    hide Body;
    hide CheckToken;
    hide CheckBackend;
    var e := PassAt(op, s, name, o);
    SetGetKey(s.world.tunnels, name, e.tunnel, name);
  }
}
