/** One pass from its observable causes to its observable effects: when it does nothing, what makes it
    fail, what it asks of the API server, and what the status says afterwards. The causes are stated
    on the objects of the cluster and on the calls that fail. */
module PassTable {
  import opened Prelude
  import opened Decimal
  import opened TunnelApi
  import opened AgentPod
  import opened Classify
  import opened ClusterState
  import opened DomainResolver
  import opened PassSpec
  import opened GateMeaning
  import opened Runs
  import opened PassFacts

  // ---- the causes ----

  /** The tunnel cannot be read, is not there, is being deleted, or has finally failed. */
  predicate Skipped(v: View, o: Oracle) {
    o.getTunnel || v.tunnel.None? || v.tunnel.value.deleting
    || (v.tunnel.value.status.phase == Failed && v.tunnel.value.status.observedGeneration == v.tunnel.value.generation)
  }

  /** A call that the pass makes to read its inputs fails. */
  predicate ReadFails(v: View, spec: Spec, o: Oracle) {
    || o.getPod || o.getSecret || o.getService
    || (&& o.listSlices
        && var service := Key(spec.backend.namespace, spec.backend.serviceName);
          service in v.services && exists p :: p in v.services[service] && Matches(p, spec.backend.port))
  }

  /** Both gates are open, for this token and this port. */
  ghost predicate OpenFor(op: Operator, v: View, spec: Spec, token: seq<byte>, port: int) {
    GivesToken(op.namespace, v.secrets, spec.secret, token) && GivesBackend(v.services, v.slices, spec.backend, port)
  }

  ghost predicate Open(op: Operator, v: View, spec: Spec) {
    exists token, port :: OpenFor(op, v, spec, token, port)
  }

  /** The hash of a pod for the tunnel as things stand. */
  function WantedHash(op: Operator, spec: Spec, token: seq<byte>, port: int): string {
    op.hashes.spec(Payload(AgentConfig(op.image, op.namespace,
      spec.backend.serviceName + "." + spec.backend.namespace + ".svc", port, spec.subdomain, spec.secret.name,
      if spec.secret.key == "" then "authToken" else spec.secret.key, op.hashes.token(token))))
  }

  predicate Terminating(v: View) {
    v.pod.Some? && v.pod.value.terminating
  }

  /** Both gates are open and the pod carries another hash than wanted. */
  ghost predicate Outdated(op: Operator, v: View, spec: Spec) {
    && v.pod.Some?
    && (exists token, port ::
          OpenFor(op, v, spec, token, port)
          && Lookup(v.pod.value.template.annotations, "jprq.io/spec-hash") != WantedHash(op, spec, token, port))
  }

  /** The pod is not going away, need not be replaced, and its agent shows an exit with this code. */
  ghost predicate JudgedBy(op: Operator, v: View, spec: Spec, o: Oracle, code: int) {
    && v.pod.Some? && !v.pod.value.terminating
    && (Open(op, v, spec) ==> !o.ownerRef && !Outdated(op, v, spec))
    && ShowsExit(v.pod.value.statuses, code)
  }

  /** The code ends the tunnel: 10 to 15, except a busy subdomain that the spec says to retry. */
  predicate Final(code: int, spec: Spec) {
    10 <= code <= 15 && !(code == 10 && spec.collision == RetryOnBusy)
  }

  lemma SkippedMeaning(v: View, o: Oracle)
    ensures Acts(v, o) <==> !Skipped(v, o)
  {
  }

  lemma ReadMeaning(v: View, t: Tunnel, o: Oracle)
    ensures ReadsSucceed(v, t, o) <==> !ReadFails(v, t.spec, o)
  {
    hide BackendReadFails;
    BackendReadMeaning(v.services, t.spec.backend, o);
  }

  /** Open gates and the wanted hash, from the two checks. */
  lemma OpenMeaning(op: Operator, v: View, spec: Spec)
    ensures var token, backend := TokenAt(op, v, spec), BackendAt(v, spec);
      && (GatesOpen(token, backend) <==> Open(op, v, spec))
      && (GatesOpen(token, backend) ==>
            && OpenFor(op, v, spec, token.token, backend.port)
            && (forall t, p :: OpenFor(op, v, spec, t, p) ==> t == token.token && p == backend.port)
            && SpecHash(op.hashes, ConfigOf(op, InputsOf(op, spec, token, backend)))
               == WantedHash(op, spec, token.token, backend.port))
  {
    hide CheckToken;
    hide CheckBackend;
    hide GivesToken;
    hide GivesBackend;
    hide Payload;
    TokenGateMeaning(op, v.secrets, spec.secret);
    BackendGateMeaning(v.services, v.slices, spec.backend);
    var token, backend := TokenAt(op, v, spec), BackendAt(v, spec);
    if GatesOpen(token, backend) {
      assert OpenFor(op, v, spec, token.token, backend.port);
      forall t, p | OpenFor(op, v, spec, t, p) ensures t == token.token && p == backend.port {
        assert token == TokenOk(t);
        assert backend == BackendOk(spec.backend.serviceName + "." + spec.backend.namespace + ".svc", p);
      }
    }
    if Open(op, v, spec) {
      var t, p :| OpenFor(op, v, spec, t, p);
      assert token == TokenOk(t);
      assert backend == BackendOk(spec.backend.serviceName + "." + spec.backend.namespace + ".svc", p);
    }
  }

  lemma OutdatedMeaning(op: Operator, v: View, spec: Spec)
    ensures var token, backend := TokenAt(op, v, spec), BackendAt(v, spec);
      Outdated(op, v, spec) <==>
        (&& v.pod.Some? && GatesOpen(token, backend)
         && Lookup(v.pod.value.template.annotations, SPEC_HASH_ANNOTATION)
            != SpecHash(op.hashes, ConfigOf(op, InputsOf(op, spec, token, backend))))
  {
    hide CheckToken;
    hide CheckBackend;
    hide OpenFor;
    hide WantedHash;
    hide SpecHash;
    OpenMeaning(op, v, spec);
  }

  lemma JudgedMeaning(op: Operator, v: View, spec: Spec, o: Oracle)
    ensures (exists code :: JudgedBy(op, v, spec, o, code)) <==>
      (&& v.pod.Some? && !v.pod.value.terminating
       && (Open(op, v, spec) ==> !o.ownerRef && !Outdated(op, v, spec))
       && ExitOnRecord(v.pod.value.statuses).Some?)
    ensures forall code :: JudgedBy(op, v, spec, o, code) ==> ExitOnRecord(v.pod.value.statuses) == Some(code)
    ensures v.pod.Some? && ExitOnRecord(v.pod.value.statuses).Some? && (exists code :: JudgedBy(op, v, spec, o, code)) ==>
      JudgedBy(op, v, spec, o, ExitOnRecord(v.pod.value.statuses).value)
    ensures v.pod.Some? && AgentUp(v.pod.value.statuses) ==> ExitOnRecord(v.pod.value.statuses).None?
  {
    hide ShowsExit;
    hide ExitOnRecord;
    hide Open;
    hide Outdated;
    hide AgentUp;
    if v.pod.Some? {
      StatusMeaning(v.pod.value.statuses);
      UpShowsNoExit(v.pod.value.statuses);
      var r := ExitOnRecord(v.pod.value.statuses);
      if r.Some? {
        assert ShowsExit(v.pod.value.statuses, r.value);
        assert JudgedBy(op, v, spec, o, r.value) <==>
          !v.pod.value.terminating && (Open(op, v, spec) ==> !o.ownerRef && !Outdated(op, v, spec));
      }
    }
  }

  // ---- the decision ----

  /** Which decision is taken when. */
  lemma DecisionTable(op: Operator, v: View, t: Tunnel, o: Oracle)
    ensures var d, spec := DecisionAt(op, v, t, o), t.spec;
      var open, outdated := Open(op, v, spec), Outdated(op, v, spec);
      && (d.AwaitTermination? <==> Terminating(v))
      && (d.RejectOwner? <==> !Terminating(v) && open && o.ownerRef)
      && (d.Build? <==> v.pod.None? && open && !o.ownerRef)
      && (d.Replace? <==> !Terminating(v) && outdated && !o.ownerRef)
      && (d.Judge? <==> exists code :: JudgedBy(op, v, spec, o, code))
      && (d.Judge? ==> JudgedBy(op, v, spec, o, d.code) && d.verdict == ClassifyExit(d.code, spec.collision))
      && (forall code :: JudgedBy(op, v, spec, o, code) ==> d.Judge? && d.code == code)
      && (d.Hold? <==> !Terminating(v) && !open && !(exists code :: JudgedBy(op, v, spec, o, code)))
      && (d.GoActive? <==>
            v.pod.Some? && !Terminating(v) && open && !o.ownerRef && !outdated && AgentUp(v.pod.value.statuses))
      && (d.AwaitReady? <==>
            && v.pod.Some? && !Terminating(v) && open && !o.ownerRef && !outdated && !AgentUp(v.pod.value.statuses)
            && !(exists code :: JudgedBy(op, v, spec, o, code)))
  {
    hide CheckToken;
    hide CheckBackend;
    hide SpecHash;
    hide ClassifyExit;
    hide RunningAndReady;
    hide ExitOnRecord;
    hide AgentUp;
    hide JudgedBy;
    hide Open;
    hide Outdated;
    OpenMeaning(op, v, t.spec);
    OutdatedMeaning(op, v, t.spec);
    JudgedMeaning(op, v, t.spec, o);
    if v.pod.Some? { StatusMeaning(v.pod.value.statuses); }
  }

  lemma UpShowsNoExit(statuses: seq<ContainerStatus>)
    ensures AgentUp(statuses) ==> forall code :: !ShowsExit(statuses, code)
  {
    hide IsAgentAt;
  }

  // ---- doing nothing, failing ----

  /** A skipped pass sends nothing, changes nothing and asks for no other; it fails exactly when the
      tunnel could not be read. Only a tunnel that was read and may act gets further. */
  lemma SkippedPass(op: Operator, name: string, v: View, o: Oracle)
    requires Skipped(v, o)
    ensures Pass(op, name, v, o) == Effect(v.tunnel, v.pod, v.cached, o.getTunnel, NoRequeue, [], None)
  {
    hide Body;
    SkippedMeaning(v, o);
  }

  /** The pass fails before it has set a phase: a read fails; or with open gates the pod cannot be owned,
      created, or deleted to be replaced. */
  ghost predicate FailsEarly(op: Operator, v: View, spec: Spec, o: Oracle) {
    || ReadFails(v, spec, o)
    || (!Terminating(v) && Open(op, v, spec) && o.ownerRef)
    || (v.pod.None? && Open(op, v, spec) && !o.ownerRef && o.create != Done)
    || (!Terminating(v) && Outdated(op, v, spec) && !o.ownerRef && o.delete != Done)
  }

  /** The pass reads a final exit. */
  ghost predicate SeesFinal(op: Operator, v: View, spec: Spec, o: Oracle) {
    !ReadFails(v, spec, o) && exists code :: JudgedBy(op, v, spec, o, code) && Final(code, spec)
  }

  lemma EarlyMeaning(op: Operator, v: View, t: Tunnel, o: Oracle)
    ensures StopsEarly(op, v, t, o) <==> FailsEarly(op, v, t.spec, o)
    ensures JudgesTerminal(op, v, t, o) <==> SeesFinal(op, v, t.spec, o)
  {
    hide DecisionAt;
    hide ReadsSucceed;
    hide ReadFails;
    hide Open;
    hide Outdated;
    hide JudgedBy;
    hide ClassifyExit;
    ReadMeaning(v, t, o);
    DecisionTable(op, v, t, o);
    var d := DecisionAt(op, v, t, o);
    if d.Judge? { VerdictTable(d.code, t.spec.collision); }
  }

  /** A pass returns an error exactly when the tunnel cannot be read, or it stops early, or it cannot
      delete the pod of a final failure, or it has a status to write and that write fails. */
  lemma PassErrs(op: Operator, name: string, v: View, o: Oracle)
    ensures Pass(op, name, v, o).err <==>
      || o.getTunnel
      || (Acts(v, o) && StopsEarly(op, v, v.tunnel.value, o))
      || (Acts(v, o) && JudgesTerminal(op, v, v.tunnel.value, o) && o.delete != Done)
      || (PatchStatus in Pass(op, name, v, o).writes && o.patch != Done)
  {
    hide Body;
    hide StopsEarly;
    hide JudgesTerminal;
    if Acts(v, o) {
      BodyErrs(op, name, v, v.tunnel.value, o);
      BodyWrites(op, name, v, v.tunnel.value, o);
    }
  }

  lemma BodyErrs(op: Operator, name: string, v: View, t: Tunnel, o: Oracle)
    ensures Body(op, name, v, t, o).err <==>
      StopsEarly(op, v, t, o) || (JudgesTerminal(op, v, t, o) && o.delete != Done)
  {
    hide CheckToken;
    hide CheckBackend;
    hide BackendReadFails;
    hide Decide;
    hide Body;
    hide Observe;
    hide Carry;
    hide ClassifyExit;
    BodyIs(op, name, v, t, o);
    var token, backend, d := TokenAt(op, v, t.spec), BackendAt(v, t.spec), DecisionAt(op, v, t, o);
    if ReadsSucceed(v, t, o) {
      CarryResult(op, name, v.pod, v.cached, Observe(op, v, t, o).status, d, o);
      DecisionMeaning(op, v.pod, t.spec, token, backend, o.ownerRef);
      if d.Judge? { VerdictTable(d.code, t.spec.collision); }
    }
  }

  /** The request of the body: at most one, and never for the status. */
  lemma BodyWrites(op: Operator, name: string, v: View, t: Tunnel, o: Oracle)
    ensures var w, d := Body(op, name, v, t, o).writes, DecisionAt(op, v, t, o);
      && w in {[], [CreatePod], [DeletePod]}
      && (w == [CreatePod] <==> ReadsSucceed(v, t, o) && d.Build?)
      && (w == [DeletePod] <==> ReadsSucceed(v, t, o) && (d.Replace? || JudgesTerminal(op, v, t, o)))
  {
    hide CheckToken;
    hide CheckBackend;
    hide BackendReadFails;
    hide Decide;
    hide Body;
    hide Observe;
    hide ClassifyExit;
    hide NotReady;
    hide Judged;
    hide Activated;
    hide DesiredPod;
    BodyIs(op, name, v, t, o);
    var token, backend, d := TokenAt(op, v, t.spec), BackendAt(v, t.spec), DecisionAt(op, v, t, o);
    DecisionMeaning(op, v.pod, t.spec, token, backend, o.ownerRef);
    if d.Judge? { VerdictTable(d.code, t.spec.collision); }
  }

  /** The same on the objects and calls themselves. */
  lemma ErrorTable(op: Operator, name: string, v: View, o: Oracle)
    ensures Pass(op, name, v, o).err <==>
      || o.getTunnel
      || (!Skipped(v, o) && FailsEarly(op, v, v.tunnel.value.spec, o))
      || (!Skipped(v, o) && SeesFinal(op, v, v.tunnel.value.spec, o) && o.delete != Done)
      || (PatchStatus in Pass(op, name, v, o).writes && o.patch != Done)
  {
    hide Pass;
    hide StopsEarly;
    hide JudgesTerminal;
    hide FailsEarly;
    hide SeesFinal;
    PassErrs(op, name, v, o);
    SkippedMeaning(v, o);
    if Acts(v, o) { EarlyMeaning(op, v, v.tunnel.value, o); }
  }

  /** Which requests a pass sends: create exactly for an absent pod behind open gates, delete exactly for
      an outdated pod or a final exit, patch exactly when the status to be written differs; each at
      most once, the patch last. */
  lemma RequestTable(op: Operator, name: string, v: View, o: Oracle)
    ensures var w := Pass(op, name, v, o).writes;
      && (CreatePod in w <==>
            && !Skipped(v, o) && !ReadFails(v, v.tunnel.value.spec, o)
            && v.pod.None? && Open(op, v, v.tunnel.value.spec) && !o.ownerRef)
      && (DeletePod in w <==>
            && !Skipped(v, o) && !ReadFails(v, v.tunnel.value.spec, o)
            && ((!Terminating(v) && Outdated(op, v, v.tunnel.value.spec) && !o.ownerRef)
                || SeesFinal(op, v, v.tunnel.value.spec, o)))
      && (PatchStatus in w <==> Pass(op, name, v, o.(patch := Done)).tunnel != v.tunnel)
      && |w| <= 2
      && (forall i, j :: 0 <= i < j < |w| ==> w[i] != PatchStatus && w[i] != w[j])
  {
    hide Body;
    hide StopsEarly;
    hide JudgesTerminal;
    hide FailsEarly;
    hide SeesFinal;
    hide Open;
    hide Outdated;
    hide DecisionAt;
    hide ReadsSucceed;
    hide ReadFails;
    hide JudgedBy;
    SkippedMeaning(v, o);
    if Acts(v, o) {
      var t := v.tunnel.value;
      EarlyMeaning(op, v, t, o);
      ReadMeaning(v, t, o);
      DecisionTable(op, v, t, o);
      BodyWrites(op, name, v, t, o);
      PatchedBody(op, name, v, t, o);
    }
  }

  /** The patch comes after the body. */
  lemma PatchedBody(op: Operator, name: string, v: View, t: Tunnel, o: Oracle)
    ensures Body(op, name, v, t, o.(patch := Done)) == Body(op, name, v, t, o)
  {
    hide CheckToken;
    hide CheckBackend;
    hide Decide;
    hide WithPod;
    hide WithCondition;
    hide ResolvePort;
    hide Carry;
    var p := o.(patch := Done);
    assert Observe(op, v, t, p) == Observe(op, v, t, o);
    hide Observe;
    BodyIs(op, name, v, t, o);
    BodyIs(op, name, v, t, p);
    if Observe(op, v, t, o).Observed? {
      PatchedCarry(op, name, v.pod, v.cached, Observe(op, v, t, o).status, DecisionAt(op, v, t, o), o);
    }
  }

  lemma PatchedCarry(op: Operator, name: string, p: Option<Pod>, cached: string, s: Status, d: Decision, o: Oracle)
    requires d.Replace? || d.Judge? ==> p.Some?
    ensures Carry(op, name, p, cached, s, d, o.(patch := Done)) == Carry(op, name, p, cached, s, d, o)
  {
    hide NotReady;
    hide Judged;
    hide Activated;
    hide DesiredPod;
    hide ResolveDomain;
  }

  // ---- the status afterwards ----

  /** A pass that is not skipped and whose status write takes effect leaves the body's status, stamped. */
  lemma StatusIs(op: Operator, name: string, v: View, o: Oracle)
    requires Acts(v, o) && o.patch != Refused
    ensures var e, b, t := Pass(op, name, v, o), Body(op, name, v, v.tunnel.value, o), v.tunnel.value;
      && e.tunnel.Some? && e.pod == b.pod
      && e.tunnel.value == t.(status := b.status.(observedGeneration := t.generation))
  {
    hide Body;
  }

  /** What the two gate conditions say once their check has run. */
  lemma ObservedReasons(op: Operator, v: View, t: Tunnel, o: Oracle)
    ensures var cs := Observe(op, v, t, o).status.conditions;
      && (!o.getPod && !o.getSecret ==>
            var c := TokenCondition(t.spec.secret, TokenAt(op, v, t.spec), o.now);
            Shows(cs, TokenReady, c.holds, c.reason, c.message))
      && (ReadsSucceed(v, t, o) ==>
            var c := BackendCondition(BackendAt(v, t.spec), o.now);
            Shows(cs, BackendReady, c.holds, c.reason, c.message))
  {
    hide SetCondition;
    hide FindCondition;
    hide UniqueKinds;
    hide CheckToken;
    hide CheckBackend;
    hide BackendReadFails;
    hide TokenCondition;
    hide BackendCondition;
    var withPod := WithPod(t.status.(assignedSubdomain := t.spec.subdomain), v.pod);
    var token := TokenCondition(t.spec.secret, TokenAt(op, v, t.spec), o.now);
    var backend := BackendCondition(BackendAt(v, t.spec), o.now);
    assert token.kind == TokenReady && backend.kind == BackendReady by { KindsAre(op, v, t, o); }
    WithConditionEffect(withPod, token);
    WithConditionEffect(WithCondition(withPod, token), backend);
  }

  lemma KindsAre(op: Operator, v: View, t: Tunnel, o: Oracle)
    ensures TokenCondition(t.spec.secret, TokenAt(op, v, t.spec), o.now).kind == TokenReady
    ensures BackendCondition(BackendAt(v, t.spec), o.now).kind == BackendReady
  {
    hide CheckToken;
    hide CheckBackend;
  }

  /** Which phase a completed body reports and what Ready says, by the decision. */
  lemma CarryReports(op: Operator, name: string, p: Option<Pod>, cached: string, s: Status, d: Decision, o: Oracle)
    requires d.Replace? || d.Judge? ==> p.Some?
    requires !Carry(op, name, p, cached, s, d, o).err || d.Judge?
    ensures var r := Carry(op, name, p, cached, s, d, o).status;
      && r.phase == (
           if d.GoActive? then Active
           else if d.Judge? && d.verdict.terminal then Failed
           else if d.Build? || d.Replace? || (d.Hold? && p.None?) then Pending
           else Degraded)
      && (d.AwaitTermination? ==> Shows(r.conditions, Ready, false, PodPending, PreviousPodTerminating))
      && (d.Build? ==> Shows(r.conditions, Ready, false, PodPending, PodCreatedWaiting))
      && (d.Replace? ==> Shows(r.conditions, Ready, false, PodPending, ConfigurationChanged))
      && (d.Hold? ==> Shows(r.conditions, Ready, false, d.reason, d.message))
      && (d.AwaitReady? ==> Shows(r.conditions, Ready, false, PodNotReady, AgentPodNotReady))
      && (d.GoActive? ==> Shows(r.conditions, Ready, true, TunnelActive, TunnelOnline))
      && (d.Judge? ==> Shows(r.conditions, Ready, false, d.verdict.reason, d.verdict.message))
      && (d.Judge? && d.verdict.tokenInvalid ==>
            Shows(r.conditions, TokenReady, false, d.verdict.reason, d.verdict.message))
      && (!(d.Judge? && d.verdict.tokenInvalid) ==>
            FindCondition(r.conditions, TokenReady) == FindCondition(s.conditions, TokenReady))
      && FindCondition(r.conditions, BackendReady) == FindCondition(s.conditions, BackendReady)
      && r.lastExitCode == (if d.Judge? then Some(d.code) else s.lastExitCode)
      && r.lastFailureMessage ==
           (if d.Judge? then d.verdict.message else if d.GoActive? then NoMessage else s.lastFailureMessage)
      && r.restartCount == s.restartCount
      && (!d.GoActive? ==> r.url == s.url)
      && r.podName ==
           (if d.Build? then "jprq-" + name
            else if d.Judge? && d.verdict.terminal && d.verdict.deletePod && o.delete == Done then ""
            else s.podName)
  {
    hide NotReady;
    hide Judged;
    hide Activated;
    hide FindCondition;
    hide UniqueKinds;
    hide SpecHash;
    match d
    case AwaitTermination => NotReadyEffect(s, Degraded, PodPending, PreviousPodTerminating, o.now);
    case RejectOwner =>
    case Build(inputs) =>
      DesiredOwner(op.hashes, name, ConfigOf(op, inputs));
      NotReadyEffect(s.(podName := DesiredPod(op.hashes, name, ConfigOf(op, inputs)).name), Pending, PodPending,
        PodCreatedWaiting, o.now);
    case Replace => NotReadyEffect(s, Pending, PodPending, ConfigurationChanged, o.now);
    case Judge(verdict, code) => JudgedEffect(s, verdict, code, o.now);
    case Hold(reason, message) => NotReadyEffect(s, if p.Some? then Degraded else Pending, reason, message, o.now);
    case GoActive =>
      var (domain, _) := ResolveDomain(op.domainOverride, cached, o.fetch);
      ActivatedEffect(s, domain, o.now);
    case AwaitReady => NotReadyEffect(s, Degraded, PodNotReady, AgentPodNotReady, o.now);
  }

  /** What the reads leave in the fields that describe the pod and the last failure. */
  lemma ObservedPod(op: Operator, v: View, t: Tunnel, o: Oracle)
    ensures var r := Observe(op, v, t, o).status;
      && r.podName == (if o.getPod then t.status.podName else if v.pod.Some? then v.pod.value.template.name else "")
      && r.lastExitCode == t.status.lastExitCode && r.lastFailureMessage == t.status.lastFailureMessage
      && r.url == t.status.url
      && (if !o.getPod && v.pod.Some? && AgentStatus(v.pod.value.statuses).Some?
          then r.restartCount == AgentStatus(v.pod.value.statuses).value.restartCount
          else r.restartCount == t.status.restartCount)
  {
    hide SetCondition;
    hide CheckToken;
    hide CheckBackend;
    hide BackendReadFails;
    hide AgentStatus;
  }

  /** The body's status, whether it fails early or reports. */
  lemma BodyReports(op: Operator, name: string, v: View, t: Tunnel, o: Oracle)
    ensures var r, seen, d := Body(op, name, v, t, o).status, Observe(op, v, t, o).status, DecisionAt(op, v, t, o);
      && (d.Replace? || d.Judge? ==> v.pod.Some?)
      && (StopsEarly(op, v, t, o) ==> r == seen)
      && (!StopsEarly(op, v, t, o) ==>
            && var b := Carry(op, name, v.pod, v.cached, seen, d, o); r == b.status && (!b.err || d.Judge?))
  {
    hide CheckToken;
    hide CheckBackend;
    hide BackendReadFails;
    hide Decide;
    hide Body;
    hide Observe;
    hide Carry;
    BodyIs(op, name, v, t, o);
    if ReadsSucceed(v, t, o) {
      var seen, d := Observe(op, v, t, o).status, DecisionAt(op, v, t, o);
      CarryResult(op, name, v.pod, v.cached, seen, d, o);
      CarryEffect(op, name, v.pod, v.cached, seen, d, o);
    }
  }

  /** The phase after a pass that is not skipped, does not fail early and whose status write takes
      effect: Pending exactly without a pod or with an outdated one, Failed exactly on a final exit,
      Active exactly on an up-to-date pod whose agent is up behind open gates, Degraded otherwise. */
  lemma PhaseTable(op: Operator, name: string, v: View, o: Oracle)
    requires !Skipped(v, o) && o.patch != Refused && !FailsEarly(op, v, v.tunnel.value.spec, o)
    ensures var spec := v.tunnel.value.spec;
      var phase := Pass(op, name, v, o).tunnel.value.status.phase;
      var pending := v.pod.None? || (!Terminating(v) && Outdated(op, v, spec));
      var active := v.pod.Some? && !Terminating(v) && Open(op, v, spec) && !Outdated(op, v, spec)
                    && AgentUp(v.pod.value.statuses);
      var failed := SeesFinal(op, v, spec, o);
      && (phase == Pending <==> pending)
      && (phase == Active <==> active)
      && (phase == Failed <==> failed)
      && (phase == Degraded <==> !pending && !active && !failed)
  {
    hide Pass;
    hide Body;
    hide Observe;
    hide Carry;
    hide StopsEarly;
    hide JudgesTerminal;
    hide DecisionAt;
    hide ReadFails;
    hide Open;
    hide Outdated;
    hide JudgedBy;
    hide ClassifyExit;
    hide AgentUp;
    hide Shows;
    var t := v.tunnel.value;
    SkippedMeaning(v, o);
    StatusIs(op, name, v, o);
    EarlyMeaning(op, v, t, o);
    DecisionTable(op, v, t, o);
    BodyReports(op, name, v, t, o);
    var d := DecisionAt(op, v, t, o);
    if d.Judge? { VerdictTable(d.code, t.spec.collision); }
    NeedsPod(op, v, t.spec, o);
    CarryReports(op, name, v.pod, v.cached, Observe(op, v, t, o).status, d, o);
  }

  lemma NeedsPod(op: Operator, v: View, spec: Spec, o: Oracle)
    ensures Outdated(op, v, spec) ==> v.pod.Some? && Open(op, v, spec)
    ensures forall code :: JudgedBy(op, v, spec, o, code) ==>
      v.pod.Some? && !Terminating(v) && !(Outdated(op, v, spec) && Open(op, v, spec)) && !AgentUp(v.pod.value.statuses)
  {
    hide OpenFor;
    hide WantedHash;
    hide IsAgentAt;
    hide AgentUp;
  }

  /** What Ready says then, and why. */
  lemma ReadyTable(op: Operator, name: string, v: View, o: Oracle)
    requires !Skipped(v, o) && o.patch != Refused && !FailsEarly(op, v, v.tunnel.value.spec, o)
    ensures var spec, cs := v.tunnel.value.spec, Pass(op, name, v, o).tunnel.value.status.conditions;
      var open, outdated := Open(op, v, spec), Outdated(op, v, spec);
      var judged := exists code :: JudgedBy(op, v, spec, o, code);
      && (Terminating(v) ==> Shows(cs, Ready, false, PodPending, PreviousPodTerminating))
      && (v.pod.None? && open ==> Shows(cs, Ready, false, PodPending, PodCreatedWaiting))
      && (!Terminating(v) && outdated ==> Shows(cs, Ready, false, PodPending, ConfigurationChanged))
      && (!Terminating(v) && !open && !judged ==>
            exists kind, reason, message :: kind == (if ConditionIs(cs, TokenReady, true) then BackendReady else TokenReady)
              && Shows(cs, kind, false, reason, message) && Shows(cs, Ready, false, reason, message))
      && (v.pod.Some? && !Terminating(v) && open && !outdated && AgentUp(v.pod.value.statuses) ==>
            Shows(cs, Ready, true, TunnelActive, TunnelOnline))
      && (v.pod.Some? && !Terminating(v) && open && !outdated && !AgentUp(v.pod.value.statuses) && !judged ==>
            Shows(cs, Ready, false, PodNotReady, AgentPodNotReady))
  {
    hide Pass;
    hide Body;
    hide Observe;
    hide Carry;
    hide StopsEarly;
    hide JudgesTerminal;
    hide DecisionAt;
    hide ReadFails;
    hide Open;
    hide Outdated;
    hide JudgedBy;
    hide ClassifyExit;
    hide AgentUp;
    hide FindCondition;
    hide CheckToken;
    hide CheckBackend;
    var t := v.tunnel.value;
    SkippedMeaning(v, o);
    StatusIs(op, name, v, o);
    EarlyMeaning(op, v, t, o);
    DecisionTable(op, v, t, o);
    BodyReports(op, name, v, t, o);
    NeedsPod(op, v, t.spec, o);
    EarlyStops(op, v, t, o);
    var d, seen := DecisionAt(op, v, t, o), Observe(op, v, t, o).status;
    CarryReports(op, name, v.pod, v.cached, seen, d, o);
    if d.Hold? {
      HoldReason(op, v, t, o);
      var cs := Body(op, name, v, t, o).status.conditions;
      var kind := if ConditionIs(cs, TokenReady, true) then BackendReady else TokenReady;
      assert Shows(cs, kind, false, d.reason, d.message) && Shows(cs, Ready, false, d.reason, d.message);
    }
  }

  /** The reason of a closed gate is the one its condition shows, the token's before the backend's. */
  lemma HoldReason(op: Operator, v: View, t: Tunnel, o: Oracle)
    requires DecisionAt(op, v, t, o).Hold? && ReadsSucceed(v, t, o)
    ensures var d, cs := DecisionAt(op, v, t, o), Observe(op, v, t, o).status.conditions;
      Shows(cs, if ConditionIs(cs, TokenReady, true) then BackendReady else TokenReady, false, d.reason, d.message)
  {
    hide CheckToken;
    hide CheckBackend;
    hide BackendReadFails;
    hide SpecHash;
    hide ClassifyPod;
    hide RunningAndReady;
    hide Observe;
    hide FindCondition;
    ObservedReasons(op, v, t, o);
  }

  /** What a verdict on a recorded exit leaves in the status: the token is blamed for 13 and 15 and for
      no other code; the code and its message are kept; Ready gives the code's reason. */
  lemma VerdictRecorded(op: Operator, name: string, v: View, o: Oracle, code: int)
    requires !Skipped(v, o) && o.patch != Refused && !ReadFails(v, v.tunnel.value.spec, o)
    requires JudgedBy(op, v, v.tunnel.value.spec, o, code)
    ensures var s, spec := Pass(op, name, v, o).tunnel.value.status, v.tunnel.value.spec;
      var reason :=
        if code == 10 then SubdomainBusy else if code == 11 then CNAMEBusy
        else if code == 12 then AccountTunnelLimitReached else if code == 13 then AuthFailed
        else if code == 14 then InvalidSubdomain else if code == 15 then NotAllowlisted else AgentExited;
      var message := if 10 <= code <= 15 then ServerVerdict(reason, !Final(code, spec)) else AgentExit(code);
      && s.phase == (if Final(code, spec) then Failed else Degraded)
      && s.lastExitCode == Some(code) && s.lastFailureMessage == message
      && Shows(s.conditions, Ready, false, reason, message)
      && (code == 13 || code == 15 ==> Shows(s.conditions, TokenReady, false, reason, message))
      && (code != 13 && code != 15 ==>
            var c := TokenCondition(spec.secret, TokenAt(op, v, spec), o.now);
            Shows(s.conditions, TokenReady, c.holds, c.reason, c.message))
  {
    hide Pass;
    hide Body;
    hide Observe;
    hide Carry;
    hide DecisionAt;
    hide Open;
    hide Outdated;
    hide JudgedBy;
    hide FindCondition;
    hide CheckToken;
    hide CheckBackend;
    hide ReadsSucceed;
    hide ReadFails;
    hide ClassifyExit;
    hide TokenCondition;
    var t := v.tunnel.value;
    SkippedMeaning(v, o);
    StatusIs(op, name, v, o);
    DecisionTable(op, v, t, o);
    ReadMeaning(v, t, o);
    BodyReports(op, name, v, t, o);
    CarryReports(op, name, v.pod, v.cached, Observe(op, v, t, o).status, DecisionAt(op, v, t, o), o);
    VerdictTable(code, t.spec.collision);
    ReasonTable(code, t.spec.collision);
    PodWasRead(v, t, o);
    ObservedReasons(op, v, t, o);
  }

  lemma PodWasRead(v: View, t: Tunnel, o: Oracle)
    ensures ReadsSucceed(v, t, o) ==> !o.getPod && !o.getSecret
  {
  }

  /** What the gate conditions say after a pass that has read everything, except that a verdict on 13 or
      15 overrules the token's: true exactly when the cluster gives the token or the backend, else with
      the reason for what is missing. */
  lemma GateConditionTable(op: Operator, name: string, v: View, o: Oracle)
    requires !Skipped(v, o) && o.patch != Refused && !ReadFails(v, v.tunnel.value.spec, o)
    ensures var cs, spec := Pass(op, name, v, o).tunnel.value.status.conditions, v.tunnel.value.spec;
      var secret := Key(op.namespace, spec.secret.name);
      var service := Key(spec.backend.namespace, spec.backend.serviceName);
      var blamed := JudgedBy(op, v, spec, o, 13) || JudgedBy(op, v, spec, o, 15);
      && FindCondition(cs, TokenReady).Some? && FindCondition(cs, BackendReady).Some?
      && var token, backend := FindCondition(cs, TokenReady).value, FindCondition(cs, BackendReady).value;
        && (token.holds <==> !blamed && exists bytes :: GivesToken(op.namespace, v.secrets, spec.secret, bytes))
        && (token.holds <==> token.reason == TokenFound)
        && (!blamed ==> (token.reason == SecretNotFound <==> secret !in v.secrets))
        && (backend.holds <==> exists port :: GivesBackend(v.services, v.slices, spec.backend, port))
        && (backend.holds <==> backend.reason == EndpointsReady)
        && (backend.reason == ServiceNotFound <==> service !in v.services)
        && (backend.reason == NoReadyEndpoints <==>
              && service in v.services && (exists p :: p in v.services[service] && Matches(p, spec.backend.port))
              && !HasServingEndpoint(v.slices, spec.backend))
  {
    hide Pass;
    hide Body;
    hide Observe;
    hide Carry;
    hide DecisionAt;
    hide Open;
    hide Outdated;
    hide JudgedBy;
    hide FindCondition;
    hide CheckToken;
    hide CheckBackend;
    hide ReadsSucceed;
    hide ReadFails;
    hide ClassifyExit;
    hide GivesToken;
    hide GivesBackend;
    hide HasServingEndpoint;
    hide Matches;
    hide StopsEarly;
    hide TokenCondition;
    hide BackendCondition;
    var t := v.tunnel.value;
    var d := DecisionAt(op, v, t, o);
    SkippedMeaning(v, o);
    StatusIs(op, name, v, o);
    DecisionTable(op, v, t, o);
    ReadMeaning(v, t, o);
    BodyReports(op, name, v, t, o);
    if !StopsEarly(op, v, t, o) {
      CarryReports(op, name, v.pod, v.cached, Observe(op, v, t, o).status, d, o);
    } else {
      JudgesDoNotStop(op, v, t, o);
    }
    if d.Judge? {
      VerdictTable(d.code, t.spec.collision);
      ReasonTable(d.code, t.spec.collision);
    }
    PodWasRead(v, t, o);
    ObservedReasons(op, v, t, o);
    TokenConditionMeaning(op, v, t.spec, o.now);
    BackendConditionMeaning(v, t.spec, o.now);
  }

  lemma TokenConditionMeaning(op: Operator, v: View, spec: Spec, now: nat)
    ensures var c := TokenCondition(spec.secret, TokenAt(op, v, spec), now);
      && (c.holds <==> exists bytes :: GivesToken(op.namespace, v.secrets, spec.secret, bytes))
      && (c.holds <==> c.reason == TokenFound)
      && (c.reason == SecretNotFound <==> Key(op.namespace, spec.secret.name) !in v.secrets)
      && c.reason in {TokenFound, SecretNotFound, SecretKeyNotFound, EmptyToken}
      && (c.holds ==>
            c.message == UsingToken(spec.secret.name, if spec.secret.key == "" then "authToken" else spec.secret.key))
      && (!c.holds ==> c.message == TokenAt(op, v, spec).message)
  {
    hide CheckToken;
    hide GivesToken;
    TokenGateMeaning(op, v.secrets, spec.secret);
    CheckReasons(op, v, spec);
    var check := TokenAt(op, v, spec);
    if bytes :| GivesToken(op.namespace, v.secrets, spec.secret, bytes) { assert check == TokenOk(bytes); }
    if check.TokenOk? { GivenTokenIsThere(op, v, spec, check.token); }
  }

  lemma GivenTokenIsThere(op: Operator, v: View, spec: Spec, token: seq<byte>)
    ensures GivesToken(op.namespace, v.secrets, spec.secret, token) ==> Key(op.namespace, spec.secret.name) in v.secrets
  {
    hide OnlySpaces;
  }

  lemma BackendConditionMeaning(v: View, spec: Spec, now: nat)
    ensures var c := BackendCondition(BackendAt(v, spec), now);
      var service := Key(spec.backend.namespace, spec.backend.serviceName);
      && (c.holds <==> exists port :: GivesBackend(v.services, v.slices, spec.backend, port))
      && (c.holds <==> c.reason == EndpointsReady)
      && (c.reason == ServiceNotFound <==> service !in v.services)
      && (c.reason == NoReadyEndpoints <==>
            && service in v.services && (exists p :: p in v.services[service] && Matches(p, spec.backend.port))
            && !HasServingEndpoint(v.slices, spec.backend))
      && (forall port :: GivesBackend(v.services, v.slices, spec.backend, port) ==>
            c.message == ForwardingTo(
              spec.backend.serviceName + "." + spec.backend.namespace + ".svc" + ":" + Itoa(port)))
      && (!c.holds ==> c.message == BackendAt(v, spec).message)
  {
    hide CheckBackend;
    hide HasServingEndpoint;
    hide IsFirstPort;
    hide Matches;
    BackendGateMeaning(v.services, v.slices, spec.backend);
    BackendReasons(v, spec);
    var check := BackendAt(v, spec);
    var host := spec.backend.serviceName + "." + spec.backend.namespace + ".svc";
    if check.BackendOk? { assert check == BackendOk(check.host, check.port); }
    forall port | GivesBackend(v.services, v.slices, spec.backend, port) ensures check == BackendOk(host, port) {}
  }

  lemma BackendReasons(v: View, spec: Spec)
    ensures BackendAt(v, spec).BackendBad? ==>
      BackendAt(v, spec).reason in {ServiceNotFound, PortNotResolvable, NoReadyEndpoints}
  {
    hide ResolvePort;
    hide HasReadyEndpoint;
  }

  lemma JudgesDoNotStop(op: Operator, v: View, t: Tunnel, o: Oracle)
    ensures ReadsSucceed(v, t, o) && StopsEarly(op, v, t, o) ==> !DecisionAt(op, v, t, o).Judge?
  {
    hide Decide;
    hide BackendReadFails;
  }

  lemma CheckReasons(op: Operator, v: View, spec: Spec)
    ensures TokenAt(op, v, spec).TokenBad? ==>
      TokenAt(op, v, spec).reason in {SecretNotFound, SecretKeyNotFound, EmptyToken}
  {
    hide Blank;
  }

  /** The fields that describe the pod and the last failure, after every pass whose status write takes
      effect, failing ones included. */
  lemma FieldTable(op: Operator, name: string, v: View, o: Oracle)
    requires !Skipped(v, o) && o.patch != Refused
    ensures var s, t := Pass(op, name, v, o).tunnel.value.status, v.tunnel.value;
      var judged := !ReadFails(v, t.spec, o) && exists code :: JudgedBy(op, v, t.spec, o, code);
      var created := CreatePod in Pass(op, name, v, o).writes && o.create == Done;
      && (!judged ==> s.lastExitCode == t.status.lastExitCode)
      && (FailsEarly(op, v, t.spec, o) || s.phase != Active ==> s.url == t.status.url)
      && (!judged && s.phase != Active ==> s.lastFailureMessage == t.status.lastFailureMessage)
      && (!FailsEarly(op, v, t.spec, o) && s.phase == Active ==> s.lastFailureMessage == NoMessage)
      && s.podName == (
           if o.getPod then t.status.podName
           else if created then "jprq-" + name
           else if v.pod.None? || (SeesFinal(op, v, t.spec, o) && o.delete == Done) then ""
           else v.pod.value.template.name)
      && (forall i :: !o.getPod && v.pod.Some? && 0 <= i < |v.pod.value.statuses| && IsAgentAt(v.pod.value.statuses, i) ==>
            s.restartCount == v.pod.value.statuses[i].restartCount)
      && (o.getPod || v.pod.None? || (forall c :: c in v.pod.value.statuses ==> c.name != "agent") ==>
            s.restartCount == t.status.restartCount)
  {
    hide Body;
    hide Observe;
    hide Carry;
    hide DecisionAt;
    hide Open;
    hide Outdated;
    hide JudgedBy;
    hide FindCondition;
    hide ReadsSucceed;
    hide ReadFails;
    hide ClassifyExit;
    hide StopsEarly;
    hide JudgesTerminal;
    hide FailsEarly;
    hide SeesFinal;
    hide IsAgentAt;
    hide Shows;
    var t := v.tunnel.value;
    var d := DecisionAt(op, v, t, o);
    SkippedMeaning(v, o);
    StatusIs(op, name, v, o);
    EarlyMeaning(op, v, t, o);
    DecisionTable(op, v, t, o);
    ReadMeaning(v, t, o);
    BodyReports(op, name, v, t, o);
    BodyWrites(op, name, v, t, o);
    ObservedPod(op, v, t, o);
    EarlyStops(op, v, t, o);
    if !StopsEarly(op, v, t, o) {
      CarryReports(op, name, v.pod, v.cached, Observe(op, v, t, o).status, d, o);
    }
    if d.Judge? { VerdictTable(d.code, t.spec.collision); }
    if v.pod.Some? { AgentAt(v.pod.value.statuses); }
  }

  lemma EarlyStops(op: Operator, v: View, t: Tunnel, o: Oracle)
    ensures var d := DecisionAt(op, v, t, o);
      && (!ReadsSucceed(v, t, o) ==> StopsEarly(op, v, t, o) && !JudgesTerminal(op, v, t, o))
      && (o.getPod ==> !ReadsSucceed(v, t, o))
      && (ReadsSucceed(v, t, o) && StopsEarly(op, v, t, o) ==> !d.Judge? && (d.Build? ==> o.create != Done))
      && (ReadsSucceed(v, t, o) && d.Build? && o.create != Done ==> StopsEarly(op, v, t, o))
      && (JudgesTerminal(op, v, t, o) <==> ReadsSucceed(v, t, o) && d.Judge? && d.verdict.terminal)
  {
    hide Decide;
    hide BackendReadFails;
  }

  /** The URL after a completed pass that reports Active, as text: of the present subdomain under the
      override, else the domain already known, else the domain of a 200 reply that names one; with none
      of these it is what it was. */
  lemma UrlTable(op: Operator, name: string, v: View, o: Oracle)
    requires Completes(op, name, v, o)
    requires Pass(op, name, v, o).tunnel.value.status.phase == Active
    ensures var domain :=
        if op.domainOverride != "" then op.domainOverride
        else if v.cached != "" then v.cached
        else if o.fetch.Reply? && o.fetch.status == 200 && o.fetch.domain.Some? then o.fetch.domain.value
        else "";
      && Pass(op, name, v, o).tunnel.value.status.url ==
           (if domain == "" then v.tunnel.value.status.url
            else "https://" + v.tunnel.value.spec.subdomain + "." + domain)
      && Pass(op, name, v, o).cached == (if op.domainOverride != "" then v.cached else domain)
  {
    hide Pass;
    UrlAfterActive(op, name, v, o);
  }
}
