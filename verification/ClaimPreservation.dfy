/** The controller never gives up a subdomain claim because something flapped. */
module ClaimPreservation {
  import opened Prelude
  import opened TunnelApi
  import opened AgentPod
  import opened Classify
  import opened ClusterState
  import opened PassSpec
  import opened Runs
  import opened PassFacts
  import opened RunTheorems

  /** Whenever both gates happen to be open, the inputs of the pod are `inputs`; and no exit on the
      agent's record is final under the present spec. Gates may close and open at will. */
  predicate Steady(op: Operator, s: State, name: string, inputs: BuildInputs) {
    name in s.world.tunnels ==>
      var v, spec := ViewAt(op, s, name), s.world.tunnels[name].spec;
      var token, backend := TokenAt(OpAt(op, s), v, spec), BackendAt(v, spec);
      && (GatesOpen(token, backend) ==> InputsOf(OpAt(op, s), spec, token, backend) == inputs)
      && (v.pod.Some? ==> NoFinalExit(v.pod.value, spec))
  }

  predicate NoFinalExit(pod: Pod, spec: Spec) {
    ClassifyPod(pod.statuses, spec.collision).Some? ==> !ClassifyPod(pod.statuses, spec.collision).value.0.terminal
  }

  ghost predicate SteadyRun(op: Operator, s: State, steps: seq<Step>, name: string, inputs: BuildInputs) {
    forall i :: 0 <= i <= |steps| ==> Steady(op, StateAt(op, s, steps, i), name, inputs)
  }

  /** Nobody but the controller takes the pod away. */
  predicate LeavesPod(op: Operator, step: Step, name: string) {
    step != EvictPod(PodKey(op, name)) && step != RemovePod(PodKey(op, name))
  }

  /** The claim is held: the pod with this identity is there and has not been asked to go. */
  predicate Holds(op: Operator, s: State, name: string, uid: nat) {
    PodKey(op, name) in s.world.pods
    && s.world.pods[PodKey(op, name)].uid == uid
    && !s.world.pods[PodKey(op, name)].terminating
  }

  /** A pass that sees the pod built from `inputs`, and nothing final, asks for no write on pods. */
  lemma SteadyPass(op: Operator, s: State, name: string, o: Oracle, uid: nat)
    requires Inv(op, s) && Holds(op, s, name, uid) && uid in s.built
    requires Steady(op, s, name, s.built[uid])
    ensures var e := PassAt(op, s, name, o);
      && e.pod == ViewAt(op, s, name).pod && e.built.None?
      && CreatePod !in e.writes && DeletePod !in e.writes
  {
    hide SpecHash;
    hide CheckToken;
    hide CheckBackend;
    hide Decide;
    hide Observe;
    hide Body;
    hide Carry;
    hide DesiredPod;
    hide ClassifyPod;
    hide Faithful;
    hide Coherent;
    var v, at := ViewAt(op, s, name), OpAt(op, s);
    if Acts(v, o) {
      var t := v.tunnel.value;
      var d := DecisionAt(at, v, t, o);
      var pod := v.pod.value;
      assert PodFits(op, s, PodKey(op, name), pod);
      assert ConfigOf(at, s.built[uid]) == ConfigOf(op, s.built[uid]);
      AnnotationOf(op.hashes, pod.template.owner, ConfigOf(op, s.built[uid]));
      SteadyDecision(at, pod, t.spec, TokenAt(at, v, t.spec), BackendAt(v, t.spec), o.ownerRef, s.built[uid]);
      BodyIs(at, name, v, t, o);
      if Observe(at, v, t, o).Observed? {
        SteadyCarry(at, name, pod, v.cached, Observe(at, v, t, o).status, d, o);
      }
    }
  }

  lemma SteadyDecision(op: Operator, pod: Pod, spec: Spec, token: TokenCheck, backend: BackendCheck, ownerFails: bool,
                       inputs: BuildInputs)
    requires !pod.terminating && NoFinalExit(pod, spec)
    requires Lookup(pod.template.annotations, SPEC_HASH_ANNOTATION) == SpecHash(op.hashes, ConfigOf(op, inputs))
    requires GatesOpen(token, backend) ==> InputsOf(op, spec, token, backend) == inputs
    ensures var d := Decide(op, Some(pod), spec, token, backend, ownerFails);
      !d.Build? && !d.Replace? && (d.Judge? ==> !d.verdict.terminal)
  {
    hide SpecHash;
    hide ClassifyPod;
    hide RunningAndReady;
  }

  lemma SteadyCarry(op: Operator, name: string, pod: Pod, cached: string, s: Status, d: Decision, o: Oracle)
    requires !d.Build? && !d.Replace? && (d.Judge? ==> !d.verdict.terminal)
    ensures var b := Carry(op, name, Some(pod), cached, s, d, o);
      b.pod == Some(pod) && b.built.None? && b.writes == []
  {
    hide SetCondition;
    hide DesiredPod;
  }

  lemma ClaimStep(op: Operator, s: State, step: Step, name: string, uid: nat)
    requires Inv(op, s) && FreshUid(s, step) && LeavesPod(op, step, name)
    requires Holds(op, s, name, uid) && uid in s.built
    requires Steady(op, s, name, s.built[uid])
    ensures Holds(op, Exec(op, s, step), name, uid)
    ensures uid in Exec(op, s, step).built && Exec(op, s, step).built[uid] == s.built[uid]
    ensures step.Reconcile? && step.tunnel == name ==>
      CreatePod !in PassAt(op, s, name, step.oracle).writes && DeletePod !in PassAt(op, s, name, step.oracle).writes
  {
    hide Pass;
    hide Steady;
    hide Inv;
    hide KubeletStep;
    hide HistoryStep;
    hide ReplaceAgent;
    if step.Reconcile? {
      if step.tunnel == name { SteadyPass(op, s, name, step.oracle, uid); }
      else { PassIsLocal(op, s, step.tunnel, step.oracle, name); }
    }
  }

  /** Along every run in which the hashed inputs keep their value whenever both gates are open and
      the agent's exits are never final, the pod keeps its identity and is never asked to go, and
      no pass for the tunnel creates or deletes one, however endpoints, the Secret, the Service,
      readiness and API calls flap. */
  lemma {:induction false} ClaimIsKept(op: Operator, s: State, steps: seq<Step>, name: string, uid: nat, o: Oracle)
    requires Inv(op, s) && ValidRun(op, s, steps)
    requires Holds(op, s, name, uid) && uid in s.built
    requires SteadyRun(op, s, steps, name, s.built[uid])
    requires forall i :: 0 <= i < |steps| ==> LeavesPod(op, steps[i], name)
    ensures var r := Run(op, s, steps);
      && Holds(op, r, name, uid)
      && uid in r.built && r.built[uid] == s.built[uid]
      && CreatePod !in PassAt(op, r, name, o).writes && DeletePod !in PassAt(op, r, name, o).writes
  {
    hide Exec;
    hide Pass;
    hide Steady;
    hide Inv;
    hide LeavesPod;
    hide Holds;
    if steps != [] {
      var prefix, last := steps[..|steps| - 1], |steps| - 1;
      ValidPrefix(op, s, steps);
      forall i | 0 <= i <= |prefix| ensures Steady(op, StateAt(op, s, prefix, i), name, s.built[uid]) {
        assert prefix[..i] == steps[..i];
        assert Steady(op, StateAt(op, s, steps, i), name, s.built[uid]);
      }
      ClaimIsKept(op, s, prefix, name, uid, o);
      RunKeepsInv(op, s, prefix);
      assert Steady(op, StateAt(op, s, steps, last), name, s.built[uid]);
      ClaimStep(op, Run(op, s, prefix), steps[last], name, uid);
    }
    RunKeepsInv(op, s, steps);
    assert Steady(op, StateAt(op, s, steps, |steps|), name, s.built[uid]);
    assert steps[..|steps|] == steps;
    SteadyPass(op, Run(op, s, steps), name, o, uid);
  }
}
