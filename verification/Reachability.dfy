/** Active can be reached: every tunnel on course has a short run to it, and so has every new tunnel
    whose inputs are there. */
module Reachability {
  import opened Prelude
  import opened TunnelApi
  import opened AgentPod
  import opened Classify
  import opened ClusterState
  import opened PassSpec
  import opened DomainResolver
  import opened Runs
  import opened PassFacts
  import opened RunTheorems
  import opened Convergence
  import opened OneAgent

  lemma {:induction false} FreshNumber(used: set<nat>) returns (n: nat)
    ensures forall u :: u in used ==> u < n
  {
    if used == {} {
      n := 0;
    } else {
      var u :| u in used;
      n := FreshNumber(used - {u});
      n := if n <= u then u + 1 else n;
      assert used == (used - {u}) + {u};
    }
  }

  /** One more step at the end of a run. */
  lemma RunGrows(op: Operator, s: State, steps: seq<Step>, step: Step, name: string)
    requires CalmRun(op, s, steps, name) && ValidRun(op, s, steps)
    requires Calm(op, Run(op, s, steps), step, name) && FreshUid(Run(op, s, steps), step)
    ensures Run(op, s, steps + [step]) == Exec(op, Run(op, s, steps), step)
    ensures CalmRun(op, s, steps + [step], name) && ValidRun(op, s, steps + [step])
  {
    hide Exec;
    hide Calm;
    hide FreshUid;
    var longer := steps + [step];
    LastStep(op, s, steps, step);
    ValidGrows(op, s, steps, step);
    forall i | 0 <= i < |longer| ensures Calm(op, StateAt(op, s, longer, i), longer[i], name) {
      assert longer[..i] == steps[..i];
      if i == |steps| {
        assert steps[..i] == steps;
      } else {
        assert Calm(op, StateAt(op, s, steps, i), steps[i], name);
      }
    }
  }

  /** The tunnel is as it was created, and its pod, if there is one, was built from `wanted`. */
  predicate Made(op: Operator, s: State, name: string, spec: Spec, wanted: BuildInputs) {
    && name in s.world.tunnels
    && s.world.tunnels[name].spec == spec && s.world.tunnels[name].generation == 1
    && (PodKey(op, name) in s.world.pods ==>
          var uid := s.world.pods[PodKey(op, name)].uid; uid in s.built && s.built[uid] == wanted)
  }

  /** Calm steps keep it so. */
  lemma CalmKeepsMade(op: Operator, s: State, step: Step, name: string, spec: Spec, wanted: BuildInputs)
    requires OnCourse(op, s, name, wanted) && Calm(op, s, step, name) && FreshUid(s, step)
    requires Made(op, s, name, spec, wanted)
    ensures Made(op, Exec(op, s, step), name, spec, wanted)
  {
    hide WantedAt;
    hide Pass;
    hide UpToDate;
    hide NothingFinalOnRecord;
    if step.Reconcile? {
      if step.tunnel == name { PassKeepsMade(op, s, name, step.oracle, spec, wanted); }
      else { PassIsLocal(op, s, step.tunnel, step.oracle, name); }
    } else if IsPodStep(step) {
      PodStepKeepsMade(op, s, step, name, spec, wanted);
    }
  }

  lemma PodStepKeepsMade(op: Operator, s: State, step: Step, name: string, spec: Spec, wanted: BuildInputs)
    requires IsPodStep(step) && Made(op, s, name, spec, wanted)
    ensures Made(op, Exec(op, s, step), name, spec, wanted)
  {
    hide Exec;
    var key := PodKey(op, name);
    PodStepIsLocal(op, s, step);
    StepKeepsIdentity(op, s, step, key);
    if key !in s.world.pods { NoPodFromPodStep(op, s, step, key); }
    assert GetKey(Exec(op, s, step).world.pods, key).Some? ==> GetKey(s.world.pods, key).Some?;
  }

  lemma NoPodFromPodStep(op: Operator, s: State, step: Step, key: Key)
    requires IsPodStep(step) && key !in s.world.pods
    ensures key !in Exec(op, s, step).world.pods
  {
    hide AgentSteps;
    hide HistoryStep;
    hide AfterDelete;
  }

  lemma PassKeepsMade(op: Operator, s: State, name: string, o: Oracle, spec: Spec, wanted: BuildInputs)
    requires WantedAt(op, s, name) == Some(wanted) && o.uid !in s.built
    requires Made(op, s, name, spec, wanted)
    ensures Made(op, Exec(op, s, Reconcile(name, o)), name, spec, wanted)
  {
    hide Pass;
    hide CheckToken;
    hide CheckBackend;
    hide DesiredPod;
    var at, v, e := OpAt(op, s), ViewAt(op, s, name), PassAt(op, s, name, o);
    PassPod(at, name, v, o);
    GenerationPass(at, name, v, o);
    SetGetKey(s.world.tunnels, name, e.tunnel, name);
    SetGetKey(s.world.pods, PodKey(op, name), e.pod, PodKey(op, name));
    if e.built.Some? { CreatesFromGates(at, name, v, o); }
  }

  /** Every step is a pass for this tunnel with this outcome of the domain lookup, or on a pod. */
  predicate OwnSteps(steps: seq<Step>, name: string, fetch: Fetch) {
    forall i :: 0 <= i < |steps| ==>
      IsPodStep(steps[i]) || (steps[i].Reconcile? && steps[i].tunnel == name && steps[i].oracle.fetch == fetch)
  }

  /** From every state on course there is a calm run, with a new identity for every pod it creates,
      that has no more steps than the rank and ends on an Active tunnel with a current, ready pod. */
  lemma RouteToActive(op: Operator, s: State, name: string, wanted: BuildInputs, o: Oracle) returns (steps: seq<Step>)
    requires OnCourse(op, s, name, wanted) && Faultless(o)
    ensures |steps| <= Rank(op, s, name, wanted) <= 7
    ensures CalmRun(op, s, steps, name) && ValidRun(op, s, steps) && OwnSteps(steps, name, o.fetch)
    ensures Arrived(op, Run(op, s, steps), name, wanted)
    ensures forall spec :: Made(op, s, name, spec, wanted) ==> Made(op, Run(op, s, steps), name, spec, wanted)
  {
    hide Exec;
    hide OnCourse;
    hide Calm;
    hide Productive;
    hide Rank;
    hide Arrived;
    hide CalmRun;
    hide ValidRun;
    hide Made;
    steps := [];
    NoSteps(op, s, name);
    var now := s;
    while Rank(op, now, name, wanted) > 0
      invariant now == Run(op, s, steps) && OnCourse(op, now, name, wanted)
      invariant CalmRun(op, s, steps, name) && ValidRun(op, s, steps) && OwnSteps(steps, name, o.fetch)
      invariant Rank(op, now, name, wanted) + |steps| <= Rank(op, s, name, wanted)
      invariant forall spec :: Made(op, s, name, spec, wanted) ==> Made(op, now, name, spec, wanted)
      decreases Rank(op, now, name, wanted)
    {
      var uid := FreshNumber(now.built.Keys);
      var step := ProductiveStepExists(op, now, name, wanted, o.(uid := uid));
      assert FreshUid(now, step);
      CalmStep(op, now, step, name, wanted);
      forall spec | Made(op, now, name, spec, wanted) ensures Made(op, Exec(op, now, step), name, spec, wanted) {
        CalmKeepsMade(op, now, step, name, spec, wanted);
      }
      RunGrows(op, s, steps, step, name);
      steps := steps + [step];
      now := Exec(op, now, step);
    }
    RankBound(op, s, name, wanted);
    RankZero(op, now, name, wanted);
  }

  lemma NoSteps(op: Operator, s: State, name: string)
    ensures CalmRun(op, s, [], name) && ValidRun(op, s, [])
  {
  }

  /** A run in two parts. */
  lemma {:induction false} RunConcat(op: Operator, s: State, first: seq<Step>, second: seq<Step>)
    requires ValidRun(op, s, first) && ValidRun(op, Run(op, s, first), second)
    ensures Run(op, s, first + second) == Run(op, Run(op, s, first), second)
    ensures ValidRun(op, s, first + second)
  {
    hide Exec;
    hide FreshUid;
    if second == [] {
      assert first + second == first;
    } else {
      var prefix, last := second[..|second| - 1], second[|second| - 1];
      ValidPrefix(op, Run(op, s, first), second);
      RunConcat(op, s, first, prefix);
      ValidGrows(op, s, first + prefix, last);
      assert first + second == first + prefix + [last];
      hide ValidRun;
      LastStep(op, s, first + prefix, last);
    }
  }

  lemma LastStep(op: Operator, s: State, steps: seq<Step>, step: Step)
    ensures Run(op, s, steps + [step]) == Exec(op, Run(op, s, steps), step)
  {
    hide Exec;
    assert (steps + [step])[..|steps|] == steps;
  }

  lemma ValidGrows(op: Operator, s: State, steps: seq<Step>, step: Step)
    requires ValidRun(op, s, steps) && FreshUid(Run(op, s, steps), step)
    ensures ValidRun(op, s, steps + [step])
  {
    hide Exec;
    hide FreshUid;
    var longer := steps + [step];
    forall i | 0 <= i < |longer| ensures FreshUid(StateAt(op, s, longer, i), longer[i]) {
      assert longer[..i] == steps[..i];
      if i == |steps| {
        assert steps[..i] == steps;
      } else {
        assert FreshUid(StateAt(op, s, steps, i), steps[i]);
      }
    }
  }

  /** One more step of a valid run. */
  lemma Extend(op: Operator, s: State, steps: seq<Step>, step: Step)
    requires ValidRun(op, s, steps) && FreshUid(Run(op, s, steps), step)
    ensures ValidRun(op, s, steps + [step])
    ensures Run(op, s, steps + [step]) == Exec(op, Run(op, s, steps), step)
  {
    hide Exec;
    hide FreshUid;
    ValidGrows(op, s, steps, step);
    hide ValidRun;
    LastStep(op, s, steps, step);
  }

  /** A new tunnel whose Secret, Service and endpoints are there: some run takes it from an empty
      cluster to Active on a pod built from what was wanted. */
  lemma Arrival(op: Operator, s0: State, name: string, spec: Spec, wanted: BuildInputs, o: Oracle)
    returns (steps: seq<Step>)
    requires Initial(s0) && Faultless(o)
    requires WantedAt(op, Exec(op, s0, CreateTunnel(name, spec)), name) == Some(wanted)
    ensures |steps| <= 8 && ValidRun(op, s0, steps)
    ensures var s := Run(op, s0, steps);
      OnCourse(op, s, name, wanted) && Arrived(op, s, name, wanted) && Made(op, s, name, spec, wanted)
  {
    hide WantedAt;
    hide OnCourse;
    hide Rank;
    hide Run;
    hide Made;
    hide Arrived;
    var created := Exec(op, s0, CreateTunnel(name, spec));
    NewTunnelOnCourse(op, s0, name, spec, wanted);
    hide Exec;
    var rest := RouteToActive(op, created, name, wanted, o);
    OneStep(op, s0, CreateTunnel(name, spec));
    RunConcat(op, s0, [CreateTunnel(name, spec)], rest);
    steps := [CreateTunnel(name, spec)] + rest;
    ReachesActive(op, created, rest, name, wanted);
  }

  /** In particular a pass can complete and report Active there. */
  lemma ActiveIsReachable(op: Operator, s0: State, name: string, spec: Spec, wanted: BuildInputs, o: Oracle)
    returns (steps: seq<Step>)
    requires Initial(s0) && Faultless(o)
    requires WantedAt(op, Exec(op, s0, CreateTunnel(name, spec)), name) == Some(wanted)
    ensures |steps| <= 8 && ValidRun(op, s0, steps)
    ensures var s := Run(op, s0, steps);
      && Completes(OpAt(op, s), name, ViewAt(op, s, name), o)
      && PassAt(op, s, name, o).tunnel.value.status.phase == Active
  {
    hide OnCourse;
    hide Arrived;
    hide Made;
    hide Completes;
    hide Run;
    hide Exec;
    steps := Arrival(op, s0, name, spec, wanted, o);
    ArrivedReports(op, Run(op, s0, steps), name, wanted, o);
  }

  lemma NewTunnelOnCourse(op: Operator, s0: State, name: string, spec: Spec, wanted: BuildInputs)
    requires Initial(s0)
    requires WantedAt(op, Exec(op, s0, CreateTunnel(name, spec)), name) == Some(wanted)
    ensures OnCourse(op, Exec(op, s0, CreateTunnel(name, spec)), name, wanted)
    ensures Made(op, Exec(op, s0, CreateTunnel(name, spec)), name, spec, wanted)
  {
    hide WantedAt;
    hide UpToDate;
    hide NothingFinalOnRecord;
  }

  lemma OneStep(op: Operator, s: State, step: Step)
    requires FreshUid(s, step)
    ensures Run(op, s, [step]) == Exec(op, s, step) && ValidRun(op, s, [step])
  {
    hide Exec;
    hide FreshUid;
    assert [step][..0] == [];
    assert Run(op, s, [step][..0]) == s;
  }

  /** On an arrived tunnel every pass without API failures reports Active again. */
  lemma ArrivedReports(op: Operator, s: State, name: string, wanted: BuildInputs, o: Oracle)
    requires OnCourse(op, s, name, wanted) && Arrived(op, s, name, wanted) && Faultless(o)
    ensures Completes(OpAt(op, s), name, ViewAt(op, s, name), o)
    ensures PassAt(op, s, name, o).tunnel.value.status.phase == Active
  {
    hide CheckToken;
    hide CheckBackend;
    hide Pass;
    hide UpToDate;
    hide NothingFinalOnRecord;
    hide RunningAndReady;
    hide AgentRunning;
    var at, v := OpAt(op, s), ViewAt(op, s, name);
    AtIsSame(op, s, wanted);
    PassOnCourse(at, name, v, o, wanted);
    FaultlessPass(at, name, v, o);
  }

  /** Without API failures a pass returns no error. */
  lemma FaultlessPass(op: Operator, name: string, v: View, o: Oracle)
    requires Faultless(o)
    ensures !Pass(op, name, v, o).err
  {
    hide Body;
    hide StopsEarly;
    hide JudgesTerminal;
    if Acts(v, o) {
      BodyEnds(op, name, v, v.tunnel.value, o);
      FaultlessNeverStops(op, v, v.tunnel.value, o);
    }
  }
}
