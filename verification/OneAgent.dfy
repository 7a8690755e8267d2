/** A subdomain is never held by two agents of one tunnel: an agent pod is created only for open
    gates and present inputs, and only after the pod before it is gone. */
module OneAgent {
  import opened Prelude
  import opened AgentPod
  import opened ClusterState
  import opened PassSpec
  import opened PodMeaning
  import opened Runs
  import opened PassFacts
  import opened RunTheorems

  /** In every reachable state a tunnel owns at most one pod. */
  lemma OneAgentPerTunnel(op: Operator, s0: State, steps: seq<Step>, j: Key, k: Key)
    requires Initial(s0) && ValidRun(op, s0, steps)
    requires var pods := Run(op, s0, steps).world.pods;
      j in pods && k in pods && pods[j].template.owner == pods[k].template.owner
    ensures j == k
  {
    hide Run;
    hide DesiredPod;
    ReachablePodFits(op, s0, steps, j);
    ReachablePodFits(op, s0, steps, k);
  }

  /** The identity of the pod at a key, if there is one. */
  function UidAt(s: State, key: Key): Option<nat> {
    if key in s.world.pods then Some(s.world.pods[key].uid) else None
  }

  lemma StepKeepsIdentity(op: Operator, s: State, step: Step, key: Key)
    ensures var before, after := UidAt(s, key), UidAt(Exec(op, s, step), key);
      before.Some? && after.Some? ==> before == after
  {
    hide Pass;
    if step.Reconcile? {
      var name := step.tunnel;
      PassPod(OpAt(op, s), name, ViewAt(op, s, name), step.oracle);
      SetGetKey(s.world.pods, PodKey(op, name), PassAt(op, s, name, step.oracle).pod, key);
    }
  }

  /** Along every run, between two different pods at one key there is a state with no pod there:
      the claim is given up before it is taken again. */
  lemma {:induction false} DeleteBeforeCreate(op: Operator, s: State, steps: seq<Step>, key: Key)
    requires UidAt(s, key).Some? && UidAt(Run(op, s, steps), key).Some?
    requires UidAt(s, key) != UidAt(Run(op, s, steps), key)
    ensures exists i: nat :: i < |steps| && UidAt(StateAt(op, s, steps, i), key).None?
  {
    hide Exec;
    var last := |steps| - 1;
    var prefix := steps[..last];
    if UidAt(Run(op, s, prefix), key).None? {
      assert UidAt(StateAt(op, s, steps, last), key).None?;
    } else {
      StepKeepsIdentity(op, Run(op, s, prefix), steps[last], key);
      DeleteBeforeCreate(op, s, prefix, key);
      var i: nat :| i < |prefix| && UidAt(StateAt(op, s, prefix, i), key).None?;
      assert prefix[..i] == steps[..i];
      assert UidAt(StateAt(op, s, steps, i), key).None?;
    }
  }

  /** What a pass creates is built from open gates. */
  lemma CreatesFromGates(op: Operator, name: string, v: View, o: Oracle)
    requires Pass(op, name, v, o).built.Some?
    ensures Acts(v, o) && v.pod.None?
    ensures var spec := v.tunnel.value.spec;
      && GatesOpen(TokenAt(op, v, spec), BackendAt(v, spec))
      && Pass(op, name, v, o).built.value == InputsOf(op, spec, TokenAt(op, v, spec), BackendAt(v, spec))
  {
    hide Observe;
    hide Body;
    hide Carry;
    hide Decide;
    hide CheckToken;
    hide CheckBackend;
    PassPod(op, name, v, o);
    var t := v.tunnel.value;
    BodyIs(op, name, v, t, o);
    DecideFits(op, v.pod, t.spec, TokenAt(op, v, t.spec), BackendAt(v, t.spec), o.ownerRef);
    if Observe(op, v, t, o).Observed? {
      CarryPod(op, name, v.pod, v.cached, Observe(op, v, t, o).status, DecisionAt(op, v, t, o), o);
    }
  }

  /** A pass creates a pod only where there is none, for a tunnel that is neither being deleted nor
      finally failed, and only from inputs that the cluster, the spec and the manager state now; and
      the fields of the pod it creates say that it serves this tunnel in this cluster. */
  lemma CreatesCurrent(op: Operator, s: State, name: string, o: Oracle)
    requires PassAt(op, s, name, o).built.Some?
    ensures PodKey(op, name) !in s.world.pods
    ensures name in s.world.tunnels && !s.world.tunnels[name].deleting && !Sticky(s.world.tunnels[name])
    ensures var e, spec := PassAt(op, s, name, o), s.world.tunnels[name].spec;
      && Current(op, s, spec, e.built.value)
      && e.pod.Some?
      && PodKey(op, name) == Key(e.pod.value.template.namespace, e.pod.value.template.name)
      && Serves(e.pod.value.template, op.namespace, s.image, s.world, name, spec, e.built.value.token)
  {
    hide Pass;
    hide Current;
    hide Serves;
    hide CheckToken;
    hide CheckBackend;
    hide DesiredPod;
    var at, inputs := OpAt(op, s), PassAt(op, s, name, o).built.value;
    CreatesFromGates(at, name, ViewAt(op, s, name), o);
    PassPod(at, name, ViewAt(op, s, name), o);
    OpenGatesAreCurrent(op, s, name, s.world.tunnels[name].spec);
    assert ConfigOf(at, inputs) == ConfigOf(op, inputs);
    CurrentServes(op, s, name, s.world.tunnels[name].spec, inputs);
    WhereDesired(op, name, ConfigOf(op, inputs));
  }

  lemma WhereDesired(op: Operator, name: string, c: AgentConfig)
    ensures DesiredPod(op.hashes, name, c).name == PodName(name)
    ensures DesiredPod(op.hashes, name, c).namespace == c.operatorNamespace
  {
    hide SpecHash;
  }
}
