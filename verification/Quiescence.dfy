/** In a still environment the controller comes to rest: at most three passes, then nothing. */
module Quiescence {
  import opened Prelude
  import opened TunnelApi
  import opened AgentPod
  import opened Classify
  import opened ClusterState
  import opened DomainResolver
  import opened PassSpec
  import opened Runs
  import opened PassFacts
  import opened RunTheorems

  /** A decision that leaves the pod alone and the tunnel able to act again. */
  predicate Resting(d: Decision) {
    d.AwaitTermination? || d.Hold? || d.GoActive? || d.AwaitReady? || (d.Judge? && !d.verdict.terminal)
  }

  predicate HasCondition(s: Status, c: Condition) {
    FindCondition(s.conditions, c.kind).Some? && SameButTime(FindCondition(s.conditions, c.kind).value, c)
  }

  /** The status says already what the reads of a pass would make it say. */
  predicate Reflects(op: Operator, v: View, spec: Spec, s: Status) {
    var token, backend := TokenAt(op, v, spec), BackendAt(v, spec);
    && s.assignedSubdomain == spec.subdomain
    && WithPod(s, v.pod) == s
    && HasCondition(s, TokenCondition(spec.secret, token, 0))
    && HasCondition(s, BackendCondition(backend, 0))
    && (backend.BackendOk? ==> s.backendAddress == Address(backend.host, backend.port))
  }

  lemma RewriteCondition(s: Status, c: Condition)
    requires HasCondition(s, c)
    ensures WithCondition(s, c) == s
  {
    hide FindCondition;
    SetConditionIdempotent(s.conditions, c);
  }

  lemma TimeIsIgnored(s: Status, spec: Spec, token: TokenCheck, backend: BackendCheck, now: nat, later: nat)
    ensures HasCondition(s, TokenCondition(spec.secret, token, now))
        <==> HasCondition(s, TokenCondition(spec.secret, token, later))
    ensures HasCondition(s, BackendCondition(backend, now)) <==> HasCondition(s, BackendCondition(backend, later))
  {
    hide FindCondition;
  }

  lemma ObserveReflects(op: Operator, v: View, t: Tunnel, o: Oracle)
    requires ReadsSucceed(v, t, o)
    ensures Reflects(op, v, t.spec, Observe(op, v, t, o).status)
  {
    hide FindCondition;
    hide SetCondition;
    hide UniqueKinds;
    hide CheckToken;
    hide CheckBackend;
    hide Address;
    var token, backend := TokenAt(op, v, t.spec), BackendAt(v, t.spec);
    var withPod := WithPod(t.status.(assignedSubdomain := t.spec.subdomain), v.pod);
    var tokenCondition := TokenCondition(t.spec.secret, token, o.now);
    WithConditionEffect(withPod, tokenCondition);
    WithConditionEffect(WithCondition(withPod, tokenCondition), BackendCondition(backend, o.now));
    TimeIsIgnored(Observe(op, v, t, o).status, t.spec, token, backend, o.now, 0);
  }

  lemma ReflectedIsObserved(op: Operator, v: View, t: Tunnel, o: Oracle)
    requires ReadsSucceed(v, t, o)
    requires Reflects(op, v, t.spec, t.status)
    ensures Observe(op, v, t, o).status == t.status
  {
    hide FindCondition;
    hide SetCondition;
    hide CheckToken;
    hide CheckBackend;
    hide Address;
    hide HasCondition;
    hide WithPod;
    var token, backend := TokenAt(op, v, t.spec), BackendAt(v, t.spec);
    TimeIsIgnored(t.status, t.spec, token, backend, o.now, 0);
    RewriteCondition(t.status, TokenCondition(t.spec.secret, token, o.now));
    RewriteCondition(t.status, BackendCondition(backend, o.now));
  }

  /** Carrying out a resting decision twice changes nothing the second time. */
  lemma CarryAgain(op: Operator, name: string, p: Option<Pod>, cached: string, s: Status, d: Decision, o: Oracle,
                   generation: nat, o2: Oracle)
    requires Resting(d) && (d.Judge? ==> p.Some? && !d.verdict.tokenInvalid)
    requires Faultless(o) && Faultless(o2) && o.fetch == o2.fetch
    ensures var b := Carry(op, name, p, cached, s, d, o);
      var once := b.status.(observedGeneration := generation);
      var again := Carry(op, name, p, b.cached, once, d, o2);
      && b.pod == p && b.writes == [] && b.built.None? && !b.err
      && again.pod == p && again.writes == [] && again.built.None? && !again.err
      && again.status == once && again.cached == b.cached
      && (b.status.podName == s.podName && b.status.restartCount == s.restartCount)
      && b.status.assignedSubdomain == s.assignedSubdomain && b.status.backendAddress == s.backendAddress
      && (forall k :: k != Ready ==> FindCondition(b.status.conditions, k) == FindCondition(s.conditions, k))
  {
    hide FindCondition;
    hide SetCondition;
    hide UniqueKinds;
    hide UrlFor;
    hide FetchedDomain;
    var b := Carry(op, name, p, cached, s, d, o);
    var once := b.status.(observedGeneration := generation);
    var (ready, before) := ReadyOf(op, p, cached, s, d, o);
    WithConditionEffect(before, ready);
    assert b.status == WithCondition(before, ready);
    assert HasCondition(once, ready.(since := o2.now));
    RewriteCondition(once, ready.(since := o2.now));
  }

  /** The Ready condition a resting decision writes, and the status it writes it into. */
  function ReadyOf(op: Operator, p: Option<Pod>, cached: string, s: Status, d: Decision, o: Oracle): (Condition, Status)
    requires Resting(d)
  {
    match d
    case AwaitTermination =>
      (Condition(Ready, false, PodPending, PreviousPodTerminating, o.now), s.(phase := Degraded))
    case Hold(reason, message) =>
      (Condition(Ready, false, reason, message, o.now), s.(phase := if p.Some? then Degraded else Pending))
    case AwaitReady =>
      (Condition(Ready, false, PodNotReady, AgentPodNotReady, o.now), s.(phase := Degraded))
    case Judge(verdict, code) =>
      (Condition(Ready, false, verdict.reason, verdict.message, o.now),
       s.(lastExitCode := Some(code), lastFailureMessage := verdict.message, phase := Degraded))
    case GoActive =>
      var (domain, _) := ResolveDomain(op.domainOverride, cached, o.fetch);
      var up := s.(phase := Active, lastFailureMessage := NoMessage);
      (Condition(Ready, true, TunnelActive, TunnelOnline, o.now),
       if domain.Some? then up.(url := UrlFor(up.assignedSubdomain, domain.value)) else up)
  }

  function AfterView(v: View, e: Effect): View {
    v.(tunnel := e.tunnel, pod := e.pod, cached := e.cached)
  }

  /** A pass that finds everything as it left it. */
  predicate Idle(op: Operator, name: string, v: View, o: Oracle) {
    var e := Pass(op, name, v, o);
    e.writes == [] && e.tunnel == v.tunnel && e.pod == v.pod && e.cached == v.cached && e.built.None?
  }

  /** A pass is idle on a status that reflects the cluster and that its decision gives back. */
  lemma ReflectedIsIdle(op: Operator, name: string, w: View, o: Oracle, again: Outcome)
    requires Acts(w, o) && ReadsSucceed(w, w.tunnel.value, o)
    requires var u := w.tunnel.value;
      && Reflects(op, w, u.spec, u.status)
      && u.status.observedGeneration == u.generation
      && (DecisionAt(op, w, u, o).Replace? || DecisionAt(op, w, u, o).Judge? ==> w.pod.Some?)
      && again == Carry(op, name, w.pod, w.cached, u.status, DecisionAt(op, w, u, o), o)
    requires again.pod == w.pod && again.writes == [] && again.built.None? && again.cached == w.cached
    requires again.status == w.tunnel.value.status
    ensures Idle(op, name, w, o)
  {
    hide Reflects;
    hide ReadsSucceed;
    hide DecisionAt;
    hide Observe;
    hide Body;
    hide Carry;
    var u := w.tunnel.value;
    BodyIs(op, name, w, u, o);
    ReflectedIsObserved(op, w, u, o);
  }

  /** After a pass with a resting decision, the next one is idle. */
  lemma RestingRepeats(op: Operator, name: string, v: View, o: Oracle, o2: Oracle)
    requires Faultless(o) && Faultless(o2) && o.fetch == o2.fetch
    requires Acts(v, o) && Resting(DecisionAt(op, v, v.tunnel.value, o))
    ensures Idle(op, name, AfterView(v, Pass(op, name, v, o)), o2)
    ensures var e := Pass(op, name, v, o); e.pod == v.pod && e.built.None?
  {
    hide Reflects;
    hide FindCondition;
    hide UniqueKinds;
    hide CheckToken;
    hide CheckBackend;
    hide Decide;
    hide Observe;
    hide Body;
    hide Carry;
    hide Idle;
    var t := v.tunnel.value;
    var d := DecisionAt(op, v, t, o);
    var seen := Observe(op, v, t, o);
    BodyIs(op, name, v, t, o);
    ObserveReflects(op, v, t, o);
    CarryAgainAt(op, name, v, t, seen.status, o, o2);
    var b := Carry(op, name, v.pod, v.cached, seen.status, d, o);
    var once := b.status.(observedGeneration := t.generation);
    ReflectsCarried(op, v, t.spec, seen.status, once);
    var w := AfterView(v, Pass(op, name, v, o));
    var u := t.(status := once);
    assert w == v.(tunnel := Some(u), cached := b.cached);
    ReflectsSame(op, v, w, t.spec, once);
    assert DecisionAt(op, w, u, o2) == d;
    ReflectedIsIdle(op, name, w, o2, Carry(op, name, v.pod, b.cached, once, d, o2));
  }

  lemma CarryAgainAt(op: Operator, name: string, v: View, t: Tunnel, s: Status, o: Oracle, o2: Oracle)
    requires Faultless(o) && Faultless(o2) && o.fetch == o2.fetch
    requires Resting(DecisionAt(op, v, t, o))
    ensures var d := DecisionAt(op, v, t, o);
      && (d.Judge? ==> v.pod.Some?)
      && var b := Carry(op, name, v.pod, v.cached, s, d, o);
      var once := b.status.(observedGeneration := t.generation);
      var again := Carry(op, name, v.pod, b.cached, once, d, o2);
      && b.pod == v.pod && b.writes == [] && b.built.None? && !b.err
      && again.pod == v.pod && again.writes == [] && again.built.None? && !again.err
      && again.status == once && again.cached == b.cached
      && b.status.phase != Failed
      && (b.status.podName == s.podName && b.status.restartCount == s.restartCount)
      && b.status.assignedSubdomain == s.assignedSubdomain && b.status.backendAddress == s.backendAddress
      && (forall k :: k != Ready ==> FindCondition(b.status.conditions, k) == FindCondition(s.conditions, k))
  {
    hide FindCondition;
    hide CheckToken;
    hide CheckBackend;
    hide Decide;
    hide Carry;
    var d := DecisionAt(op, v, t, o);
    if d.Judge? {
      DecisionMeaning(op, v.pod, t.spec, TokenAt(op, v, t.spec), BackendAt(v, t.spec), o.ownerRef);
      VerdictTable(d.code, t.spec.collision);
    }
    CarryEffect(op, name, v.pod, v.cached, s, d, o);
    CarryAgain(op, name, v.pod, v.cached, s, d, o, t.generation, o2);
  }

  lemma ReflectsSame(op: Operator, v: View, w: View, spec: Spec, s: Status)
    requires Reflects(op, v, spec, s)
    requires w == v.(tunnel := w.tunnel, cached := w.cached)
    ensures Reflects(op, w, spec, s)
    ensures forall t, o :: DecisionAt(op, w, t, o) == DecisionAt(op, v, t, o)
  {
    hide FindCondition;
    hide CheckToken;
    hide CheckBackend;
    hide Decide;
  }

  lemma ReflectsCarried(op: Operator, v: View, spec: Spec, s: Status, r: Status)
    requires Reflects(op, v, spec, s)
    requires r.podName == s.podName && r.restartCount == s.restartCount
    requires r.assignedSubdomain == s.assignedSubdomain && r.backendAddress == s.backendAddress
    requires forall k :: k != Ready ==> FindCondition(r.conditions, k) == FindCondition(s.conditions, k)
    ensures Reflects(op, v, spec, r)
  {
    hide FindCondition;
    hide CheckToken;
    hide CheckBackend;
    hide Address;
  }

  // ---- in a cluster ----

  predicate IdleAt(op: Operator, s: State, name: string, o: Oracle) {
    PassAt(op, s, name, o).writes == [] && Exec(op, s, Reconcile(name, o)) == s
  }

  lemma IdleInCluster(op: Operator, s: State, name: string, o: Oracle)
    requires Idle(OpAt(op, s), name, ViewAt(op, s, name), o)
    ensures IdleAt(op, s, name, o)
  {
    hide Pass;
    PutUnchanged(op, s.world, name, PassAt(op, s, name, o));
  }

  lemma ViewAfterPass(op: Operator, s: State, name: string, o: Oracle)
    ensures var r := Exec(op, s, Reconcile(name, o));
      && ViewAt(op, r, name) == AfterView(ViewAt(op, s, name), PassAt(op, s, name, o))
      && OpAt(op, r) == OpAt(op, s)
  {
    hide Pass;
    var e := PassAt(op, s, name, o);
    SetGetKey(s.world.tunnels, name, e.tunnel, name);
    SetGetKey(s.world.pods, PodKey(op, name), e.pod, PodKey(op, name));
  }

  /** Where a pass without API failures goes: nowhere, to rest, or one step nearer to it. */
  lemma PassProgress(op: Operator, name: string, v: View, o: Oracle, o2: Oracle)
    requires Faultless(o) && Faultless(o2) && o.fetch == o2.fetch && Acts(v, o)
    ensures var w, d := AfterView(v, Pass(op, name, v, o)), DecisionAt(op, v, v.tunnel.value, o);
      && !d.RejectOwner?
      && (Resting(d) || d.Judge? ==> Idle(op, name, w, o2))
      && (d.Build? ==> Acts(w, o2) && DecisionAt(op, w, w.tunnel.value, o2).AwaitReady?)
      && (d.Replace? ==>
            && Acts(w, o2)
            && (DecisionAt(op, w, w.tunnel.value, o2).Build? || DecisionAt(op, w, w.tunnel.value, o2).AwaitTermination?))
  {
    hide SpecHash;
    hide CheckToken;
    hide CheckBackend;
    hide ClassifyPod;
    hide Body;
    hide Decide;
    var t := v.tunnel.value;
    var d := DecisionAt(op, v, t, o);
    var token, backend := TokenAt(op, v, t.spec), BackendAt(v, t.spec);
    NeverRejects(op, v, t, o);
    DecisionMeaning(op, v.pod, t.spec, token, backend, o.ownerRef);
    DecideFits(op, v.pod, t.spec, token, backend, o.ownerRef);
    FailedAfterPass(op, name, v, o);
    if Resting(d) {
      RestingRepeats(op, name, v, o, o2);
    } else if !d.Judge? {
      FaultlessNeverStops(op, v, t, o);
      AfterBuildOrReplace(op, name, v, o, o2);
    }
  }

  lemma NeverRejects(op: Operator, v: View, t: Tunnel, o: Oracle)
    requires Faultless(o)
    ensures !DecisionAt(op, v, t, o).RejectOwner?
  {
    hide SpecHash;
    hide CheckToken;
    hide CheckBackend;
    hide ClassifyPod;
    hide RunningAndReady;
  }

  lemma AfterBuildOrReplace(op: Operator, name: string, v: View, o: Oracle, o2: Oracle)
    requires Faultless(o) && Faultless(o2) && Acts(v, o)
    requires DecisionAt(op, v, v.tunnel.value, o).Build? || DecisionAt(op, v, v.tunnel.value, o).Replace?
    ensures var e, d := Pass(op, name, v, o), DecisionAt(op, v, v.tunnel.value, o);
      && e.tunnel.Some? && e.tunnel.value.spec == v.tunnel.value.spec
      && (d.Build? ==>
            Decide(op, e.pod, v.tunnel.value.spec, TokenAt(op, v, v.tunnel.value.spec),
              BackendAt(v, v.tunnel.value.spec), o2.ownerRef).AwaitReady?)
      && (d.Replace? ==>
            var d2 := Decide(op, e.pod, v.tunnel.value.spec, TokenAt(op, v, v.tunnel.value.spec),
              BackendAt(v, v.tunnel.value.spec), o2.ownerRef);
            d2.Build? || d2.AwaitTermination?)
  {
    hide SetCondition;
    hide SpecHash;
    hide CheckToken;
    hide CheckBackend;
    hide Observe;
    hide Body;
    hide DesiredPod;
    hide Decide;
    var t := v.tunnel.value;
    var token, backend := TokenAt(op, v, t.spec), BackendAt(v, t.spec);
    var d := DecisionAt(op, v, t, o);
    BodyIs(op, name, v, t, o);
    DecideFits(op, v.pod, t.spec, token, backend, o.ownerRef);
    if d.Build? {
      FreshPodWaits(op, name, o.uid, t.spec, token, backend, o2.ownerRef);
    } else {
      DeletedPodWaits(op, v.pod.value, t.spec, token, backend);
    }
  }

  lemma FreshPodWaits(op: Operator, name: string, uid: nat, spec: Spec, token: TokenCheck, backend: BackendCheck,
                      ownerFails: bool)
    requires GatesOpen(token, backend) && !ownerFails
    ensures var config := ConfigOf(op, InputsOf(op, spec, token, backend));
      Decide(op, Some(NewPod(uid, DesiredPod(op.hashes, name, config))), spec, token, backend, ownerFails).AwaitReady?
  {
    hide SpecHash;
    AnnotationOf(op.hashes, name, ConfigOf(op, InputsOf(op, spec, token, backend)));
    hide DesiredPod;
  }

  lemma DeletedPodWaits(op: Operator, pod: Pod, spec: Spec, token: TokenCheck, backend: BackendCheck)
    requires GatesOpen(token, backend)
    ensures var d := Decide(op, AfterDelete(pod), spec, token, backend, false); d.Build? || d.AwaitTermination?
  {
    hide SpecHash;
    hide ClassifyPod;
    hide RunningAndReady;
  }

  /** From any state, if nothing but passes for one tunnel happens, no API call fails and the domain
      lookup keeps its outcome, then after three passes every further one creates, deletes and
      patches nothing and leaves the state as it is. The clock may run and identities may differ. */
  lemma Quiesces(op: Operator, s: State, name: string, o1: Oracle, o2: Oracle, o3: Oracle, o: Oracle)
    requires Faultless(o1) && Faultless(o2) && Faultless(o3) && Faultless(o)
    requires o1.fetch == o2.fetch == o3.fetch == o.fetch
    ensures IdleAt(op, Run(op, s, [Reconcile(name, o1), Reconcile(name, o2), Reconcile(name, o3)]), name, o)
  {
    hide Exec;
    hide Pass;
    hide IdleAt;
    hide Idle;
    var s1 := Exec(op, s, Reconcile(name, o1));
    var s2 := Exec(op, s1, Reconcile(name, o2));
    var s3 := Exec(op, s2, Reconcile(name, o3));
    var steps := [Reconcile(name, o1), Reconcile(name, o2), Reconcile(name, o3)];
    assert steps[..2] == [Reconcile(name, o1), Reconcile(name, o2)];
    assert steps[..2][..1] == [Reconcile(name, o1)];
    assert steps[..2][..1][..0] == [];
    assert Run(op, s, steps[..2][..1]) == s1;
    assert Run(op, s, steps[..2]) == s2;
    assert Run(op, s, steps) == s3;
    if !Approaches(op, s, name, o1) {
      Rests(op, s, name, o1, o2);
      Rests(op, s, name, o1, o3);
      Rests(op, s, name, o1, o);
      Stays(op, s1, name, o2);
      Stays(op, s2, name, o3);
    } else {
      Nears(op, s, name, o1, o2);
      if !Approaches(op, s1, name, o2) {
        Rests(op, s1, name, o2, o3);
        Rests(op, s1, name, o2, o);
        Stays(op, s2, name, o3);
      } else {
        Nears(op, s1, name, o2, o3);
        Rests(op, s2, name, o3, o);
      }
    }
  }

  lemma Stays(op: Operator, s: State, name: string, o: Oracle)
    requires IdleAt(op, s, name, o)
    ensures Exec(op, s, Reconcile(name, o)) == s
  {
  }

  /** The pass is going to create or replace the pod. */
  predicate Approaches(op: Operator, s: State, name: string, o: Oracle) {
    && Acts(ViewAt(op, s, name), o)
    && (|| DecisionAt(OpAt(op, s), ViewAt(op, s, name), s.world.tunnels[name], o).Build?
        || DecisionAt(OpAt(op, s), ViewAt(op, s, name), s.world.tunnels[name], o).Replace?)
  }

  lemma Rests(op: Operator, s: State, name: string, o: Oracle, o2: Oracle)
    requires Faultless(o) && Faultless(o2) && o.fetch == o2.fetch
    requires !Approaches(op, s, name, o)
    ensures IdleAt(op, Exec(op, s, Reconcile(name, o)), name, o2)
  {
    hide Pass;
    hide Decide;
    hide Idle;
    if Acts(ViewAt(op, s, name), o) {
      PassProgress(OpAt(op, s), name, ViewAt(op, s, name), o, o2);
      ViewAfterPass(op, s, name, o);
      hide Exec;
      IdleInCluster(op, Exec(op, s, Reconcile(name, o)), name, o2);
    } else {
      IdlePass(op, s, name, o);
      NothingWritten(OpAt(op, s), name, ViewAt(op, s, name), o2);
      IdlePass(op, s, name, o2);
    }
  }

  lemma NothingWritten(op: Operator, name: string, v: View, o: Oracle)
    requires !Acts(v, o)
    ensures Pass(op, name, v, o).writes == []
  {
    hide Body;
  }

  /** Creating or replacing is followed by resting, or by creating and then resting. */
  lemma Nears(op: Operator, s: State, name: string, o: Oracle, o2: Oracle)
    requires Faultless(o) && Faultless(o2) && o.fetch == o2.fetch
    requires Approaches(op, s, name, o)
    ensures var r := Exec(op, s, Reconcile(name, o));
      && (DecisionAt(OpAt(op, s), ViewAt(op, s, name), s.world.tunnels[name], o).Build? ==> !Approaches(op, r, name, o2))
      && (Approaches(op, r, name, o2) ==>
            DecisionAt(OpAt(op, r), ViewAt(op, r, name), r.world.tunnels[name], o2).Build?)
  {
    hide Pass;
    hide Decide;
    hide Idle;
    PassProgress(OpAt(op, s), name, ViewAt(op, s, name), o, o2);
    ViewAfterPass(op, s, name, o);
  }
}
