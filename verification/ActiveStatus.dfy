/** What phase Active can stand beside: exactly when a pass that fails half-way leaves it next to a
    closed token gate, another subdomain or another backend address. */
module ActiveStatus {
  import opened Prelude
  import opened TunnelApi
  import opened AgentPod
  import opened Classify
  import opened ClusterState
  import opened DomainResolver
  import opened PassSpec
  import opened Runs
  import opened PassFacts
  import opened RunTheorems

  /** After a pass whose status write took effect, the tunnel is Active if and only if the pass
      decided so, or it stopped early on a tunnel that was Active already. */
  lemma ActiveAfterPass(op: Operator, name: string, v: View, o: Oracle)
    requires Acts(v, o) && o.patch != Refused
    ensures var e, t := Pass(op, name, v, o), v.tunnel.value;
      && e.tunnel.Some?
      && (e.tunnel.value.status.phase == Active <==>
            (ReadsSucceed(v, t, o) && DecisionAt(op, v, t, o).GoActive?)
            || (StopsEarly(op, v, t, o) && t.status.phase == Active))
      && (ReadsSucceed(v, t, o) && DecisionAt(op, v, t, o).GoActive? ==> !StopsEarly(op, v, t, o))
  {
    hide Body;
    hide Decide;
    hide BackendReadFails;
    BodyEnds(op, name, v, v.tunnel.value, o);
  }

  /** A pass that has read everything stops early only with both gates open. */
  lemma EarlyStopMeansOpenGates(op: Operator, v: View, t: Tunnel, o: Oracle)
    requires ReadsSucceed(v, t, o) && (StopsEarly(op, v, t, o) || DecisionAt(op, v, t, o).GoActive?)
    ensures GatesOpen(TokenAt(op, v, t.spec), BackendAt(v, t.spec))
  {
    hide CheckToken;
    hide CheckBackend;
    hide SpecHash;
    hide ClassifyPod;
    hide RunningAndReady;
  }

  // ---- beside the conditions ----

  /** The gate conditions in the observed status. */
  lemma ObservedGates(op: Operator, v: View, t: Tunnel, o: Oracle)
    ensures var cs, before := Observe(op, v, t, o).status.conditions, t.status.conditions;
      && (o.getPod || o.getSecret ==> FindCondition(cs, TokenReady) == FindCondition(before, TokenReady))
      && (!o.getPod && !o.getSecret ==> ConditionIs(cs, TokenReady, TokenAt(op, v, t.spec).TokenOk?))
      && (!ReadsSucceed(v, t, o) ==> FindCondition(cs, BackendReady) == FindCondition(before, BackendReady))
      && (ReadsSucceed(v, t, o) ==> ConditionIs(cs, BackendReady, BackendAt(v, t.spec).BackendOk?))
  {
    hide SetCondition;
    hide FindCondition;
    hide UniqueKinds;
    hide CheckToken;
    hide CheckBackend;
    hide BackendReadFails;
    var withPod := WithPod(t.status.(assignedSubdomain := t.spec.subdomain), v.pod);
    var tokenCondition := TokenCondition(t.spec.secret, TokenAt(op, v, t.spec), o.now);
    WithConditionEffect(withPod, tokenCondition);
    WithConditionEffect(WithCondition(withPod, tokenCondition), BackendCondition(BackendAt(v, t.spec), o.now));
  }

  /** While the body leaves the phase Active it leaves the gate conditions as observed. */
  lemma ActiveBodyGates(op: Operator, name: string, v: View, t: Tunnel, o: Oracle)
    requires Body(op, name, v, t, o).status.phase == Active
    ensures var b, seen := Body(op, name, v, t, o).status, Observe(op, v, t, o).status;
      && FindCondition(b.conditions, TokenReady) == FindCondition(seen.conditions, TokenReady)
      && FindCondition(b.conditions, BackendReady) == FindCondition(seen.conditions, BackendReady)
      && (!ReadsSucceed(v, t, o) || GatesOpen(TokenAt(op, v, t.spec), BackendAt(v, t.spec)))
      && (t.status.phase == Active || ReadsSucceed(v, t, o))
  {
    hide FindCondition;
    hide UniqueKinds;
    hide CheckToken;
    hide CheckBackend;
    hide Decide;
    hide Body;
    hide Observe;
    hide Carry;
    hide BackendReadFails;
    BodyIs(op, name, v, t, o);
    BodyEnds(op, name, v, t, o);
    ObserveEffect(op, v, t, o);
    if ReadsSucceed(v, t, o) {
      var d := DecisionAt(op, v, t, o);
      CarryEffect(op, name, v.pod, v.cached, Observe(op, v, t, o).status, d, o);
      CarryResult(op, name, v.pod, v.cached, Observe(op, v, t, o).status, d, o);
      EarlyStopMeansOpenGates(op, v, t, o);
    }
  }

  /** After a pass whose status write took effect, Active stands beside a TokenReady that is not
      True if and only if the tunnel was Active and either the pass failed before it had checked the
      token and TokenReady was not True before, or it found the token gate closed and then failed to
      read the Service or its slices. */
  lemma ActiveWithoutToken(op: Operator, name: string, v: View, o: Oracle)
    requires Acts(v, o) && o.patch != Refused
    ensures var s, t := Pass(op, name, v, o).tunnel.value.status, v.tunnel.value;
      (s.phase == Active && !ConditionIs(s.conditions, TokenReady, true)) <==>
        (&& t.status.phase == Active
         && if o.getPod || o.getSecret then !ConditionIs(t.status.conditions, TokenReady, true)
            else BackendReadFails(v.services, t.spec.backend, o) && TokenAt(op, v, t.spec).TokenBad?)
  {
    hide FindCondition;
    hide CheckToken;
    hide CheckBackend;
    hide Decide;
    hide Body;
    hide Observe;
    hide BackendReadFails;
    var t := v.tunnel.value;
    BodyEnds(op, name, v, t, o);
    ObservedGates(op, v, t, o);
    if Body(op, name, v, t, o).status.phase == Active { ActiveBodyGates(op, name, v, t, o); }
  }

  /** For a tunnel that was Active with TokenReady True it takes exactly a closed token gate and a
      failing read of the Service or its slices. */
  lemma ActiveLosesToken(op: Operator, name: string, v: View, o: Oracle)
    requires Acts(v, o) && o.patch != Refused
    requires v.tunnel.value.status.phase == Active && ConditionIs(v.tunnel.value.status.conditions, TokenReady, true)
    ensures var s, spec := Pass(op, name, v, o).tunnel.value.status, v.tunnel.value.spec;
      (s.phase == Active && !ConditionIs(s.conditions, TokenReady, true)) <==>
        (!o.getPod && !o.getSecret && BackendReadFails(v.services, spec.backend, o) && TokenAt(op, v, spec).TokenBad?)
  {
    hide Pass;
    hide FindCondition;
    hide CheckToken;
    hide BackendReadFails;
    ActiveWithoutToken(op, name, v, o);
  }

  /** Active implies BackendReady. */
  predicate BackendReadyIfActive(s: Status) {
    s.phase == Active ==> ConditionIs(s.conditions, BackendReady, true)
  }

  lemma PassKeepsBackendReady(op: Operator, name: string, v: View, o: Oracle)
    requires v.tunnel.Some? && BackendReadyIfActive(v.tunnel.value.status)
    ensures var e := Pass(op, name, v, o); e.tunnel.Some? && BackendReadyIfActive(e.tunnel.value.status)
  {
    hide FindCondition;
    hide CheckToken;
    hide CheckBackend;
    hide Decide;
    hide Body;
    hide Observe;
    hide BackendReadFails;
    if Acts(v, o) {
      var t := v.tunnel.value;
      ObservedGates(op, v, t, o);
      if Body(op, name, v, t, o).status.phase == Active { ActiveBodyGates(op, name, v, t, o); }
    }
  }

  lemma StepKeepsBackendReady(op: Operator, s: State, step: Step, name: string)
    requires name in s.world.tunnels ==> BackendReadyIfActive(s.world.tunnels[name].status)
    ensures var r := Exec(op, s, step);
      name in r.world.tunnels ==> BackendReadyIfActive(r.world.tunnels[name].status)
  {
    hide Pass;
    hide FindCondition;
    if step.Reconcile? {
      var n, o := step.tunnel, step.oracle;
      SetGetKey(s.world.tunnels, n, PassAt(op, s, n, o).tunnel, name);
      if n == name && name in s.world.tunnels {
        PassKeepsBackendReady(OpAt(op, s), name, ViewAt(op, s, name), o);
      } else if n == name {
        NoTunnelNoPass(OpAt(op, s), name, ViewAt(op, s, name), o);
      }
    } else if !IsOwnerStep(step, name) {
      hide Exec;
      TunnelIsKept(op, s, step, name);
    }
  }

  lemma NoTunnelNoPass(op: Operator, name: string, v: View, o: Oracle)
    requires v.tunnel.None?
    ensures Pass(op, name, v, o).tunnel.None?
  {
    hide Body;
  }

  /** In every reachable state, after error passes too, Active implies BackendReady True. */
  lemma {:induction false} ActiveMeansBackendReady(op: Operator, s0: State, steps: seq<Step>, name: string)
    requires Initial(s0)
    ensures var r := Run(op, s0, steps);
      name in r.world.tunnels ==> BackendReadyIfActive(r.world.tunnels[name].status)
  {
    hide Exec;
    hide BackendReadyIfActive;
    if steps != [] {
      ActiveMeansBackendReady(op, s0, steps[..|steps| - 1], name);
      StepKeepsBackendReady(op, Run(op, s0, steps[..|steps| - 1]), steps[|steps| - 1], name);
    }
  }

  // ---- beside the claim and the address ----

  lemma ObservedClaim(op: Operator, v: View, t: Tunnel, o: Oracle)
    ensures var s := Observe(op, v, t, o).status;
      && s.assignedSubdomain == t.spec.subdomain
      && s.backendAddress ==
           if ReadsSucceed(v, t, o) && BackendAt(v, t.spec).BackendOk?
           then Address(BackendAt(v, t.spec).host, BackendAt(v, t.spec).port)
           else t.status.backendAddress
  {
    hide SetCondition;
    hide CheckToken;
    hide CheckBackend;
    hide BackendReadFails;
    hide Address;
  }

  lemma CarryKeepsClaim(op: Operator, name: string, p: Option<Pod>, cached: string, s: Status, d: Decision, o: Oracle)
    requires d.Replace? || d.Judge? ==> p.Some?
    ensures var b := Carry(op, name, p, cached, s, d, o).status;
      b.assignedSubdomain == s.assignedSubdomain && b.backendAddress == s.backendAddress
  {
    hide SetCondition;
    hide DesiredPod;
    hide UrlFor;
  }

  /** The status fields that name the claim and the address, after a pass. */
  lemma ClaimAndAddress(op: Operator, name: string, v: View, o: Oracle)
    requires Acts(v, o) && o.patch != Refused
    ensures var s, t := Pass(op, name, v, o).tunnel.value.status, v.tunnel.value;
      && s.assignedSubdomain == t.spec.subdomain
      && s.backendAddress ==
           if ReadsSucceed(v, t, o) && BackendAt(v, t.spec).BackendOk?
           then Address(BackendAt(v, t.spec).host, BackendAt(v, t.spec).port)
           else t.status.backendAddress
  {
    hide CheckToken;
    hide CheckBackend;
    hide BackendReadFails;
    hide Decide;
    hide Address;
    hide Body;
    hide Observe;
    hide Carry;
    var t := v.tunnel.value;
    BodyIs(op, name, v, t, o);
    ObservedClaim(op, v, t, o);
    if ReadsSucceed(v, t, o) {
      CarryKeepsClaim(op, name, v.pod, v.cached, Observe(op, v, t, o).status, DecisionAt(op, v, t, o), o);
    }
  }

  /** The pass removed the pod although it was told that the delete failed. */
  predicate LostReplaceRemoves(op: Operator, v: View, t: Tunnel, o: Oracle) {
    ReadsSucceed(v, t, o) && DecisionAt(op, v, t, o).Replace? && o.delete == Lost
    && v.pod.Some? && !v.pod.value.scheduled
  }

  /** After an early stop the pod is the one seen, one just created as wanted, or lost. */
  lemma PodAfterEarlyStop(op: Operator, name: string, v: View, o: Oracle)
    requires Acts(v, o) && StopsEarly(op, v, v.tunnel.value, o)
    ensures var p, t := Pass(op, name, v, o).pod, v.tunnel.value;
      && (v.pod.Some? ==>
            && (p.None? <==> LostReplaceRemoves(op, v, t, o))
            && (p.Some? ==> p.value.template == v.pod.value.template))
      && (v.pod.None? && p.Some? ==>
            && ReadsSucceed(v, t, o)
            && GatesOpen(TokenAt(op, v, t.spec), BackendAt(v, t.spec))
            && p.value.template ==
                 DesiredPod(op.hashes, name,
                   ConfigOf(op, InputsOf(op, t.spec, TokenAt(op, v, t.spec), BackendAt(v, t.spec)))))
  {
    hide CheckToken;
    hide CheckBackend;
    hide BackendReadFails;
    hide Decide;
    hide Observe;
    hide Body;
    hide DesiredPod;
    hide WithCondition;
    hide NotReady;
    hide Judged;
    hide Activated;
    var t := v.tunnel.value;
    BodyIs(op, name, v, t, o);
    DecideFits(op, v.pod, t.spec, TokenAt(op, v, t.spec), BackendAt(v, t.spec), o.ownerRef);
  }

  /** A pass that decides on Active finds a pod that claims the present subdomain and forwards to
      the present address, unless hashes collide. */
  lemma DecidedActive(op: Operator, s: State, name: string, o: Oracle)
    requires Inv(op, s) && name in s.world.tunnels
    requires DecisionAt(OpAt(op, s), ViewAt(op, s, name), s.world.tunnels[name], o).GoActive?
    ensures var v, spec := ViewAt(op, s, name), s.world.tunnels[name].spec;
      && v.pod.Some? && BackendAt(v, spec).BackendOk?
      && (|| CollisionAt(op, s, name)
          || (&& ClaimOf(v.pod.value) == spec.subdomain
              && DialsOf(v.pod.value) == Address(BackendAt(v, spec).host, BackendAt(v, spec).port)))
  {
    hide Inv;
    hide SpecHash;
    hide DesiredPod;
    hide CheckToken;
    hide CheckBackend;
    hide Decide;
    hide RunningAndReady;
    hide Address;
    hide SpecCollision;
    hide TokenCollision;
    hide ClaimOf;
    hide DialsOf;
    var at, v, spec := OpAt(op, s), ViewAt(op, s, name), s.world.tunnels[name].spec;
    DecisionMeaning(at, v.pod, spec, TokenAt(at, v, spec), BackendAt(v, spec), o.ownerRef);
    var wanted := InputsOf(at, spec, TokenAt(at, v, spec), BackendAt(v, spec));
    assert ConfigOf(at, wanted) == ConfigOf(op, wanted);
    HashedPodIsCurrent(op, s, name, wanted);
    TemplateSays(op.hashes, name, ConfigOf(op, s.built[v.pod.value.uid]), v.pod.value);
  }

  /** The status says Active and names a subdomain that the live agent does not claim. */
  predicate ShowsOtherClaim(e: Effect) {
    e.tunnel.Some? && e.tunnel.value.status.phase == Active
    && e.pod.Some? && ClaimOf(e.pod.value) != e.tunnel.value.status.assignedSubdomain
  }

  /** The status says Active and names an address that the live agent does not forward to. */
  predicate ShowsOtherAddress(e: Effect) {
    e.tunnel.Some? && e.tunnel.value.status.phase == Active
    && e.pod.Some? && DialsOf(e.pod.value) != e.tunnel.value.status.backendAddress
  }

  /** The pass stops early on an Active tunnel whose pod outlives it. */
  predicate LeavesActive(op: Operator, v: View, o: Oracle) {
    && Acts(v, o) && v.tunnel.value.status.phase == Active
    && StopsEarly(op, v, v.tunnel.value, o)
    && v.pod.Some? && !LostReplaceRemoves(op, v, v.tunnel.value, o)
  }

  /** The backend address the pass leaves in the status when it stops early. */
  function AddressLeft(v: View, o: Oracle): string
    requires v.tunnel.Some?
  {
    var t, backend := v.tunnel.value, BackendAt(v, v.tunnel.value.spec);
    if ReadsSucceed(v, t, o) && backend.BackendOk? then Address(backend.host, backend.port)
    else t.status.backendAddress
  }

  /** In every state with the invariant, hence in every reachable one, and up to a hash collision:
      after a pass whose status write took effect, Active stands beside an assigned subdomain that
      the live agent does not claim if and only if the tunnel was Active, the pass stopped early,
      the pod outlived it, and its agent claims something else than the spec. */
  lemma ActiveBesideOtherClaim(op: Operator, s: State, name: string, o: Oracle)
    requires Inv(op, s) && Acts(ViewAt(op, s, name), o) && o.patch != Refused
    ensures var v := ViewAt(op, s, name);
      var stale := LeavesActive(OpAt(op, s), v, o) && ClaimOf(v.pod.value) != v.tunnel.value.spec.subdomain;
      && (stale ==> ShowsOtherClaim(PassAt(op, s, name, o)))
      && (ShowsOtherClaim(PassAt(op, s, name, o)) ==> stale || CollisionAt(op, s, name))
  {
    hide Inv;
    hide Pass;
    hide StopsEarly;
    hide DecisionAt;
    hide ReadsSucceed;
    hide ClaimOf;
    hide DialsOf;
    hide LostReplaceRemoves;
    hide CollisionAt;
    hide Address;
    var at, v, t := OpAt(op, s), ViewAt(op, s, name), s.world.tunnels[name];
    ActiveAfterPass(at, name, v, o);
    ClaimAndAddress(at, name, v, o);
    if StopsEarly(at, v, t, o) {
      EarlyPodSays(at, name, v, o);
    } else if DecisionAt(at, v, t, o).GoActive? && ReadsSucceed(v, t, o) {
      DecidedActive(op, s, name, o);
      ActiveKeepsPod(at, name, v, o);
    }
  }

  /** The same for the address: Active stands beside a backend address that the live agent does not
      forward to if and only if the tunnel was Active, the pass stopped early, the pod outlived it,
      and its agent forwards elsewhere than the pass has resolved, or, if it could not read or
      resolve the backend, elsewhere than the status said before. */
  lemma ActiveBesideOtherAddress(op: Operator, s: State, name: string, o: Oracle)
    requires Inv(op, s) && Acts(ViewAt(op, s, name), o) && o.patch != Refused
    ensures var v := ViewAt(op, s, name);
      var stale := LeavesActive(OpAt(op, s), v, o) && DialsOf(v.pod.value) != AddressLeft(v, o);
      && (stale ==> ShowsOtherAddress(PassAt(op, s, name, o)))
      && (ShowsOtherAddress(PassAt(op, s, name, o)) ==> stale || CollisionAt(op, s, name))
  {
    hide Inv;
    hide Pass;
    hide StopsEarly;
    hide DecisionAt;
    hide ReadsSucceed;
    hide ClaimOf;
    hide DialsOf;
    hide LostReplaceRemoves;
    hide CollisionAt;
    hide Address;
    var at, v, t := OpAt(op, s), ViewAt(op, s, name), s.world.tunnels[name];
    ActiveAfterPass(at, name, v, o);
    ClaimAndAddress(at, name, v, o);
    if StopsEarly(at, v, t, o) {
      EarlyPodSays(at, name, v, o);
    } else if DecisionAt(at, v, t, o).GoActive? && ReadsSucceed(v, t, o) {
      DecidedActive(op, s, name, o);
      ActiveKeepsPod(at, name, v, o);
    }
  }

  lemma EarlyPodSays(op: Operator, name: string, v: View, o: Oracle)
    requires Acts(v, o) && StopsEarly(op, v, v.tunnel.value, o)
    ensures var p, t := Pass(op, name, v, o).pod, v.tunnel.value;
      && (v.pod.Some? ==>
            && (p.None? <==> LostReplaceRemoves(op, v, t, o))
            && (p.Some? ==> ClaimOf(p.value) == ClaimOf(v.pod.value) && DialsOf(p.value) == DialsOf(v.pod.value)))
      && (v.pod.None? && p.Some? ==>
            && ReadsSucceed(v, t, o) && BackendAt(v, t.spec).BackendOk?
            && ClaimOf(p.value) == t.spec.subdomain
            && DialsOf(p.value) == Address(BackendAt(v, t.spec).host, BackendAt(v, t.spec).port))
  {
    hide Pass;
    hide StopsEarly;
    hide CheckToken;
    hide CheckBackend;
    hide BackendReadFails;
    hide DesiredPod;
    hide LostReplaceRemoves;
    hide Address;
    PodAfterEarlyStop(op, name, v, o);
    var p, t := Pass(op, name, v, o).pod, v.tunnel.value;
    if v.pod.None? && p.Some? {
      TemplateSays(op.hashes, name,
        ConfigOf(op, InputsOf(op, t.spec, TokenAt(op, v, t.spec), BackendAt(v, t.spec))), p.value);
    }
  }

  lemma ActiveKeepsPod(op: Operator, name: string, v: View, o: Oracle)
    requires Acts(v, o) && ReadsSucceed(v, v.tunnel.value, o) && DecisionAt(op, v, v.tunnel.value, o).GoActive?
    ensures Pass(op, name, v, o).pod == v.pod
  {
    hide CheckToken;
    hide CheckBackend;
    hide BackendReadFails;
    hide Decide;
    hide Observe;
    hide Body;
    hide Activated;
    BodyIs(op, name, v, v.tunnel.value, o);
  }
}
