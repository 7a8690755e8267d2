/** Passes for different tunnels do not get in each other's way. */
module Isolation {
  import opened AgentPod
  import opened ClusterState
  import opened DomainResolver
  import opened PassSpec
  import opened Runs
  import opened RunTheorems

  /** A pass for one tunnel leaves what a pass for another would see, once the domain is known. */
  lemma ViewUndisturbed(op: Operator, s: State, a: string, o: Oracle, b: string)
    requires a != b && KnownDomain(op.domainOverride, s.cached) != ""
    ensures ViewAt(op, Exec(op, s, Reconcile(a, o)), b) == ViewAt(op, s, b)
    ensures Exec(op, s, Reconcile(a, o)).image == s.image
  {
    hide Pass;
    PassIsLocal(op, s, a, o, b);
    PassUrl(OpAt(op, s), a, ViewAt(op, s, a), o);
  }

  /** Two passes for different tunnels give the same state in either order, whatever fails in
      either of them, once the domain is known or overridden. */
  lemma PassesCommute(op: Operator, s: State, a: string, o1: Oracle, b: string, o2: Oracle)
    requires a != b && o1.uid != o2.uid
    requires KnownDomain(op.domainOverride, s.cached) != ""
    ensures Exec(op, Exec(op, s, Reconcile(a, o1)), Reconcile(b, o2))
         == Exec(op, Exec(op, s, Reconcile(b, o2)), Reconcile(a, o1))
    ensures PassAt(op, Exec(op, s, Reconcile(a, o1)), b, o2) == PassAt(op, s, b, o2)
  {
    hide Pass;
    hide AfterPass;
    var e1, e2 := PassAt(op, s, a, o1), PassAt(op, s, b, o2);
    ViewUndisturbed(op, s, a, o1, b);
    ViewUndisturbed(op, s, b, o2, a);
    PassUrl(OpAt(op, s), a, ViewAt(op, s, a), o1);
    PassUrl(OpAt(op, s), b, ViewAt(op, s, b), o2);
    EffectsCommute(op, s, a, e1, o1.uid, b, e2, o2.uid);
  }

  lemma EffectsCommute(op: Operator, s: State, a: string, e1: Effect, u1: nat, b: string, e2: Effect, u2: nat)
    requires a != b && u1 != u2 && e1.cached == e2.cached
    ensures AfterPass(op, AfterPass(op, s, a, e1, u1), b, e2, u2) == AfterPass(op, AfterPass(op, s, b, e2, u2), a, e1, u1)
  {
    hide Put;
    PutCommutes(op, s.world, a, e1, b, e2);
    var left := AfterPass(op, AfterPass(op, s, a, e1, u1), b, e2, u2);
    var right := AfterPass(op, AfterPass(op, s, b, e2, u2), a, e1, u1);
    assert left.built == right.built;
    assert left.exits == right.exits;
  }

  lemma PutCommutes(op: Operator, w: World, a: string, e1: Effect, b: string, e2: Effect)
    requires a != b
    ensures Put(op, Put(op, w, a, e1), b, e2) == Put(op, Put(op, w, b, e2), a, e1)
  {
    hide SetKey;
    if PodName(a) == PodName(b) { PodNameInjective(a, b); }
    SetKeyCommutes(w.tunnels, a, e1.tunnel, b, e2.tunnel);
    SetKeyCommutes(w.pods, PodKey(op, a), e1.pod, PodKey(op, b), e2.pod);
  }
}
