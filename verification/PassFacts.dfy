/** What a single pass guarantees, for every view and every pattern of failing calls. */
module PassFacts {
  import opened Prelude
  import opened TunnelApi
  import opened AgentPod
  import opened Classify
  import opened ClusterState
  import opened DomainResolver
  import opened PassSpec
  import opened Runs

  /** The gates as the cluster stands. */
  function TokenAt(op: Operator, v: View, spec: Spec): TokenCheck {
    CheckToken(op, v.secrets, spec.secret)
  }

  function BackendAt(v: View, spec: Spec): BackendCheck {
    CheckBackend(v.services, v.slices, spec.backend)
  }

  function DecisionAt(op: Operator, v: View, t: Tunnel, o: Oracle): Decision {
    Decide(op, v.pod, t.spec, TokenAt(op, v, t.spec), BackendAt(v, t.spec), o.ownerRef)
  }

  /** None of the reads of the pass fails. */
  predicate ReadsSucceed(v: View, t: Tunnel, o: Oracle) {
    !o.getPod && !o.getSecret && !BackendReadFails(v.services, t.spec.backend, o)
  }

  /** The pass returns an error before it has set a phase: a read failed, or the pod could not be
      owned, created or replaced. */
  predicate StopsEarly(op: Operator, v: View, t: Tunnel, o: Oracle) {
    || !ReadsSucceed(v, t, o)
    || DecisionAt(op, v, t, o).RejectOwner?
    || (DecisionAt(op, v, t, o).Build? && o.create != Done)
    || (DecisionAt(op, v, t, o).Replace? && o.delete != Done)
  }

  /** The pass reads a final exit off the agent's record. */
  predicate JudgesTerminal(op: Operator, v: View, t: Tunnel, o: Oracle) {
    ReadsSucceed(v, t, o) && DecisionAt(op, v, t, o).Judge? && DecisionAt(op, v, t, o).verdict.terminal
  }

  /** The pass is not skipped and returns no error. */
  predicate Completes(op: Operator, name: string, v: View, o: Oracle) {
    Acts(v, o) && !Pass(op, name, v, o).err
  }

  /** What each kind of decision says about the cluster it was taken in. */
  lemma DecisionMeaning(op: Operator, pod: Option<Pod>, spec: Spec, token: TokenCheck, backend: BackendCheck,
                        ownerFails: bool)
    ensures var d := Decide(op, pod, spec, token, backend, ownerFails);
      && (d.GoActive? ==>
            && GatesOpen(token, backend) && pod.Some? && !pod.value.terminating
            && RunningAndReady(pod.value.statuses)
            && Lookup(pod.value.template.annotations, SPEC_HASH_ANNOTATION)
               == SpecHash(op.hashes, ConfigOf(op, InputsOf(op, spec, token, backend))))
      && (d.Judge? ==>
            && pod.Some? && !pod.value.terminating
            && !RunningAndReady(pod.value.statuses)
            && ExitOnRecord(pod.value.statuses) == Some(d.code)
            && d.verdict == ClassifyExit(d.code, spec.collision)
            && (GatesOpen(token, backend) ==>
                  Lookup(pod.value.template.annotations, SPEC_HASH_ANNOTATION)
                  == SpecHash(op.hashes, ConfigOf(op, InputsOf(op, spec, token, backend)))))
  {
    hide SpecHash;
    hide ClassifyExit;
    hide AgentStatus;
  }

  /** When the reads succeed, the body carries out the decision on the observed status. */
  lemma BodyIs(op: Operator, name: string, v: View, t: Tunnel, o: Oracle)
    ensures var b, seen, d := Body(op, name, v, t, o), Observe(op, v, t, o), DecisionAt(op, v, t, o);
      && (ReadsSucceed(v, t, o) <==> seen.Observed?)
      && (d.Replace? || d.Judge? ==> v.pod.Some?)
      && b == (if seen.Observed? then Carry(op, name, v.pod, v.cached, seen.status, d, o)
               else Outcome(seen.status, v.pod, v.cached, true, NoRequeue, [], None))
  {
    hide SetCondition;
    hide WithPod;
    hide CheckToken;
    hide CheckBackend;
    hide BackendReadFails;
    hide Decide;
    hide Carry;
    DecideFits(op, v.pod, t.spec, TokenAt(op, v, t.spec), BackendAt(v, t.spec), o.ownerRef);
  }

  /** How the body of a pass ends, in terms of what it read and decided. */
  lemma BodyEnds(op: Operator, name: string, v: View, t: Tunnel, o: Oracle)
    ensures var b := Body(op, name, v, t, o);
      var d := DecisionAt(op, v, t, o);
      && (StopsEarly(op, v, t, o) ==> b.err && b.status.phase == t.status.phase)
      && (!StopsEarly(op, v, t, o) ==>
            && (b.err ==> JudgesTerminal(op, v, t, o) && o.delete != Done)
            && (b.status.phase == Active <==> d.GoActive?)
            && (b.status.phase == Failed <==> JudgesTerminal(op, v, t, o))
            && b.status.phase != Unset)
  {
    hide FindCondition;
    hide UniqueKinds;
    hide TokenAt;
    hide BackendAt;
    hide Decide;
    hide Body;
    hide Observe;
    hide Carry;
    BodyIs(op, name, v, t, o);
    ObserveEffect(op, v, t, o);
    var d := DecisionAt(op, v, t, o);
    if ReadsSucceed(v, t, o) {
      var seen := Observe(op, v, t, o);
      CarryEffect(op, name, v.pod, v.cached, seen.status, d, o);
      CarryResult(op, name, v.pod, v.cached, seen.status, d, o);
    }
  }

  /** After a pass whose status write took effect, the tunnel is Failed if and only if the pass
      read a final exit, or it stopped early on a tunnel that was Failed already. */
  lemma FailedAfterPass(op: Operator, name: string, v: View, o: Oracle)
    requires Acts(v, o) && o.patch != Refused
    ensures var e := Pass(op, name, v, o);
      && e.tunnel.Some?
      && e.tunnel.value.spec == v.tunnel.value.spec
      && e.tunnel.value.generation == v.tunnel.value.generation
      && e.tunnel.value.status.observedGeneration == v.tunnel.value.generation
      && (e.tunnel.value.status.phase == Failed <==>
            (JudgesTerminal(op, v, v.tunnel.value, o)
             || (StopsEarly(op, v, v.tunnel.value, o) && v.tunnel.value.status.phase == Failed)))
  {
    hide Body;
    hide StopsEarly;
    hide JudgesTerminal;
    BodyEnds(op, name, v, v.tunnel.value, o);
    assert JudgesTerminal(op, v, v.tunnel.value, o) ==> !StopsEarly(op, v, v.tunnel.value, o) by {
      JudgesRunsOn(op, v, v.tunnel.value, o);
    }
  }

  lemma JudgesRunsOn(op: Operator, v: View, t: Tunnel, o: Oracle)
    ensures JudgesTerminal(op, v, t, o) ==> !StopsEarly(op, v, t, o)
  {
    hide Decide;
    hide BackendReadFails;
  }

  /** A spec edit of a Failed tunnel is swallowed, that is, the next pass leaves it Failed and
      sticky for the new generation, exactly when that pass stops early or reads a final exit. */
  lemma EditIsSwallowed(op: Operator, name: string, v: View, o: Oracle)
    requires Acts(v, o) && o.patch != Refused
    requires v.tunnel.value.status.phase == Failed
    ensures Sticky(Pass(op, name, v, o).tunnel.value) <==>
      (StopsEarly(op, v, v.tunnel.value, o) || JudgesTerminal(op, v, v.tunnel.value, o))
    ensures Sticky(Pass(op, name, v, o).tunnel.value) ==> !Acts(v.(tunnel := Pass(op, name, v, o).tunnel), o)
  {
    hide StopsEarly;
    hide JudgesTerminal;
    hide Pass;
    FailedAfterPass(op, name, v, o);
  }

  /** The smallest instance: one failed Secret read on the first pass after the edit is enough. */
  lemma SecretReadErrorSwallowsEdit(op: Operator, name: string, v: View, o: Oracle)
    requires Acts(v, o) && o.patch == Done
    requires v.tunnel.value.status.phase == Failed
    requires o.getSecret
    ensures Sticky(Pass(op, name, v, o).tunnel.value)
    ensures Pass(op, name, v, o).err && Pass(op, name, v, o).pod == v.pod
  {
    hide Carry;
    hide Decide;
    EditIsSwallowed(op, name, v, o);
  }

  /** A final verdict is recorded before the pod is deleted: the pod outlives it, behind the
      sticky gate, exactly when the delete is refused and the status write is not. */
  lemma TerminalVerdictOutcome(op: Operator, name: string, v: View, o: Oracle)
    requires Acts(v, o) && JudgesTerminal(op, v, v.tunnel.value, o)
    ensures var e := Pass(op, name, v, o);
      && v.pod.Some? && !v.pod.value.terminating
      && (e.pod == v.pod <==> o.delete == Refused)
      && (o.delete != Refused ==> e.pod == AfterDelete(v.pod.value))
      && (Sticky(e.tunnel.value) <==> o.patch != Refused)
      && (e.pod == v.pod && Sticky(e.tunnel.value) <==> o.delete == Refused && o.patch != Refused)
  {
    hide SetCondition;
    hide CheckToken;
    hide CheckBackend;
    hide Decide;
    hide ResolveDomain;
    hide DesiredPod;
    hide Body;
    hide Observe;
    hide Carry;
    hide ClassifyExit;
    var t := v.tunnel.value;
    var d := DecisionAt(op, v, t, o);
    DecisionMeaning(op, v.pod, t.spec, TokenAt(op, v, t.spec), BackendAt(v, t.spec), o.ownerRef);
    VerdictTable(d.code, t.spec.collision);
    BodyIs(op, name, v, t, o);
    CarryEffect(op, name, v.pod, v.cached, Observe(op, v, t, o).status, d, o);
    CarryResult(op, name, v.pod, v.cached, Observe(op, v, t, o).status, d, o);
    assert v.pod.value != v.pod.value.(terminating := true);
  }

  /** With both gates open, a judged pod is the current one by its annotation. With a gate closed
      the annotation is not looked at: whatever it is, the verdict is the same. */
  lemma VerdictSource(op: Operator, pod: Pod, spec: Spec, token: TokenCheck, backend: BackendCheck,
                      ownerFails: bool, annotations: map<string, string>)
    requires Decide(op, Some(pod), spec, token, backend, ownerFails).Judge?
    ensures if GatesOpen(token, backend) then
        Lookup(pod.template.annotations, SPEC_HASH_ANNOTATION)
        == SpecHash(op.hashes, ConfigOf(op, InputsOf(op, spec, token, backend)))
      else
        Decide(op, Some(pod.(template := pod.template.(annotations := annotations))), spec, token, backend, ownerFails)
        == Decide(op, Some(pod), spec, token, backend, ownerFails)
  {
    hide SpecHash;
    hide ClassifyPod;
    hide RunningAndReady;
  }

  /** An error pass keeps the phase it found, so a closed token gate can sit beside Active. */
  lemma ActiveBesideClosedGate(op: Operator, name: string, v: View, o: Oracle)
    requires Acts(v, o) && o.patch != Refused
    requires v.tunnel.value.status.phase == Active
    requires !o.getPod && !o.getSecret && o.getService
    requires TokenAt(op, v, v.tunnel.value.spec).TokenBad?
    ensures var s := Pass(op, name, v, o).tunnel.value.status;
      s.phase == Active && ConditionIs(s.conditions, TokenReady, false)
  {
    hide SetCondition;
    hide FindCondition;
    hide CheckToken;
    hide CheckBackend;
    hide Carry;
    var t := v.tunnel.value;
    var withPod := WithPod(t.status.(assignedSubdomain := t.spec.subdomain), v.pod);
    WithConditionEffect(withPod, TokenCondition(t.spec.secret, TokenAt(op, v, t.spec), o.now));
  }

  /** A pass that completes leaves a phase that agrees with all three conditions and with when it
      wants to run again; Failed is the only phase nobody comes back to. */
  lemma CompletedPass(op: Operator, name: string, v: View, o: Oracle)
    requires Completes(op, name, v, o)
    ensures var e := Pass(op, name, v, o);
      var s := e.tunnel.value.status;
      && s.observedGeneration == v.tunnel.value.generation
      && s.phase != Unset
      && ConditionIs(s.conditions, Ready, s.phase == Active)
      && (s.phase == Active ==>
            ConditionIs(s.conditions, TokenReady, true) && ConditionIs(s.conditions, BackendReady, true))
      && (e.requeue == NoRequeue <==> s.phase == Failed)
      && (e.requeue == AfterFiveMinutes <==> s.phase == Active)
  {
    hide SetCondition;
    hide FindCondition;
    hide UniqueKinds;
    hide CheckToken;
    hide CheckBackend;
    hide Decide;
    hide ResolveDomain;
    hide DesiredPod;
    hide SpecHash;
    hide Body;
    hide Observe;
    hide Carry;
    var t := v.tunnel.value;
    var d := DecisionAt(op, v, t, o);
    BodyIs(op, name, v, t, o);
    ObserveEffect(op, v, t, o);
    var seen := Observe(op, v, t, o);
    CarryEffect(op, name, v.pod, v.cached, seen.status, d, o);
    CarryResult(op, name, v.pod, v.cached, seen.status, d, o);
    CompletedGates(op, v, t, o);
  }

  lemma CompletedGates(op: Operator, v: View, t: Tunnel, o: Oracle)
    ensures DecisionAt(op, v, t, o).GoActive? ==>
      TokenAt(op, v, t.spec).TokenOk? && BackendAt(v, t.spec).BackendOk?
  {
    hide CheckToken;
    hide CheckBackend;
    hide Decide;
    DecisionMeaning(op, v.pod, t.spec, TokenAt(op, v, t.spec), BackendAt(v, t.spec), o.ownerRef);
  }

  /** The URL after a completed pass that reports Active: built from the current subdomain when a
      domain is known, otherwise left as it was, which after a manager restart may be out of date. */
  lemma UrlAfterActive(op: Operator, name: string, v: View, o: Oracle)
    requires Completes(op, name, v, o)
    requires Pass(op, name, v, o).tunnel.value.status.phase == Active
    ensures var e := Pass(op, name, v, o);
      var (domain, cached) := ResolveDomain(op.domainOverride, v.cached, o.fetch);
      && e.cached == cached
      && e.tunnel.value.status.url ==
           (if domain.Some? then UrlFor(v.tunnel.value.spec.subdomain, domain.value) else v.tunnel.value.status.url)
  {
    hide SetCondition;
    hide FindCondition;
    hide UniqueKinds;
    hide CheckToken;
    hide CheckBackend;
    hide Decide;
    hide ResolveDomain;
    hide DesiredPod;
    hide SpecHash;
    hide UrlFor;
    var t := v.tunnel.value;
    BodyEnds(op, name, v, t, o);
    ObserveEffect(op, v, t, o);
  }

  /** What must be so for a completed pass to report Active. */
  lemma ActivePass(op: Operator, name: string, v: View, o: Oracle)
    requires Completes(op, name, v, o)
    requires Pass(op, name, v, o).tunnel.value.status.phase == Active
    ensures var e, t := Pass(op, name, v, o), v.tunnel.value;
      var token, backend := TokenAt(op, v, t.spec), BackendAt(v, t.spec);
      && e.tunnel.Some? && e.pod == v.pod && v.pod.Some? && !v.pod.value.terminating
      && RunningAndReady(v.pod.value.statuses)
      && GatesOpen(token, backend)
      && Lookup(v.pod.value.template.annotations, SPEC_HASH_ANNOTATION)
         == SpecHash(op.hashes, ConfigOf(op, InputsOf(op, t.spec, token, backend)))
      && e.tunnel.value.status.backendAddress == Address(backend.host, backend.port)
  {
    hide FindCondition;
    hide UniqueKinds;
    hide CheckToken;
    hide CheckBackend;
    hide Decide;
    hide Body;
    hide Observe;
    hide SpecHash;
    hide Address;
    hide RunningAndReady;
    var t := v.tunnel.value;
    BodyEnds(op, name, v, t, o);
    BodyIs(op, name, v, t, o);
    ObserveEffect(op, v, t, o);
    DecisionMeaning(op, v.pod, t.spec, TokenAt(op, v, t.spec), BackendAt(v, t.spec), o.ownerRef);
    CarryEffect(op, name, v.pod, v.cached, Observe(op, v, t, o).status, DecisionAt(op, v, t, o), o);
  }
}
