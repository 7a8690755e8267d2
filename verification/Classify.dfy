/** Agent exits: the exit-code contract, the verdict for a code, and how a pod's
    container status is turned into a verdict. */
module Classify {
  import opened Prelude
  import opened TunnelApi
  import opened AgentPod

  const EXIT_SUBDOMAIN_BUSY := 10
  const EXIT_CNAME_BUSY := 11
  const EXIT_ACCOUNT_TUNNEL_LIMIT := 12
  const EXIT_AUTH_FAILED := 13
  const EXIT_INVALID_SUBDOMAIN := 14
  const EXIT_NOT_ALLOWLISTED := 15
  const EXIT_EVENT_STREAM_DROPPED := 22

  datatype Verdict = Verdict(terminal: bool, deletePod: bool, tokenInvalid: bool, reason: Reason, message: Message)

  function ClassifyExit(code: int, collision: Collision): Verdict {
    if code == EXIT_AUTH_FAILED then
      Verdict(true, true, true, AuthFailed, ServerVerdict(AuthFailed, false))
    else if code == EXIT_NOT_ALLOWLISTED then
      Verdict(true, true, true, NotAllowlisted, ServerVerdict(NotAllowlisted, false))
    else if code == EXIT_ACCOUNT_TUNNEL_LIMIT then
      Verdict(true, true, false, AccountTunnelLimitReached, ServerVerdict(AccountTunnelLimitReached, false))
    else if code == EXIT_SUBDOMAIN_BUSY then
      if collision == RetryOnBusy then
        Verdict(false, false, false, SubdomainBusy, ServerVerdict(SubdomainBusy, true))
      else
        Verdict(true, true, false, SubdomainBusy, ServerVerdict(SubdomainBusy, false))
    else if code == EXIT_INVALID_SUBDOMAIN then
      Verdict(true, true, false, InvalidSubdomain, ServerVerdict(InvalidSubdomain, false))
    else if code == EXIT_CNAME_BUSY then
      Verdict(true, true, false, CNAMEBusy, ServerVerdict(CNAMEBusy, false))
    else
      Verdict(false, false, false, AgentExited, AgentExit(code))
  }

  /** Which codes are final, and what follows from being final. */
  lemma VerdictTable(code: int, collision: Collision)
    ensures var v := ClassifyExit(code, collision);
      && (v.terminal <==> 10 <= code <= 15 && !(code == 10 && collision == RetryOnBusy))
      && (v.deletePod <==> v.terminal)
      && (v.tokenInvalid <==> code == 13 || code == 15)
      && (v.tokenInvalid ==> v.terminal)
      && (forall other :: ClassifyExit(code, other) == v || code == 10)
  {
  }

  // ---- container status ----

  datatype ContainerState = Waiting | Running | Terminated(code: int)

  /** `last` is LastTerminationState.Terminated's exit code, when there is one. */
  datatype ContainerStatus = ContainerStatus(
    name: string, state: ContainerState, last: Option<int>, ready: bool, restartCount: int)

  /** The first container status named for the agent. */
  function AgentStatus(statuses: seq<ContainerStatus>): (r: Option<ContainerStatus>)
    ensures r.None? <==> forall s :: s in statuses ==> s.name != AGENT_CONTAINER
    ensures r.Some? ==> exists i :: 0 <= i < |statuses| && statuses[i] == r.value
                          && r.value.name == AGENT_CONTAINER
                          && forall j :: 0 <= j < i ==> statuses[j].name != AGENT_CONTAINER
  {
    if statuses == [] then None
    else if statuses[0].name == AGENT_CONTAINER then Some(statuses[0])
    else
      var r := AgentStatus(statuses[1..]);
      assert r.Some? ==> forall i :: 0 <= i < |statuses[1..]| ==> statuses[1..][i] == statuses[i + 1];
      r
  }

  predicate RunningAndReady(statuses: seq<ContainerStatus>) {
    var a := AgentStatus(statuses);
    a.Some? && a.value.state == Running && a.value.ready
  }

  /** The exit code a verdict would be drawn from: none while the agent is running and ready
      or has no termination on record; otherwise the previous termination if there is one,
      else the present one. */
  function ExitOnRecord(statuses: seq<ContainerStatus>): Option<int> {
    var a := AgentStatus(statuses);
    if a.None? || RunningAndReady(statuses) then None
    else if a.value.last.Some? then a.value.last
    else if a.value.state.Terminated? then Some(a.value.state.code)
    else None
  }

  function ClassifyPod(statuses: seq<ContainerStatus>, collision: Collision): Option<(Verdict, int)> {
    match ExitOnRecord(statuses)
    case None => None
    case Some(code) => Some((ClassifyExit(code, collision), code))
  }

  /** The first status named agent is at place i. */
  predicate IsAgentAt(statuses: seq<ContainerStatus>, i: int) {
    0 <= i < |statuses| && statuses[i].name == "agent" && forall j :: 0 <= j < i ==> statuses[j].name != "agent"
  }

  /** The agent's container runs and is ready. */
  predicate AgentUp(statuses: seq<ContainerStatus>) {
    exists i :: 0 <= i < |statuses| && IsAgentAt(statuses, i) && statuses[i].state == Running && statuses[i].ready
  }

  /** The agent is not up and its status shows an exit with this code: the previous one if there is
      one, else the present one. */
  predicate ShowsExit(statuses: seq<ContainerStatus>, code: int) {
    !AgentUp(statuses)
    && exists i :: 0 <= i < |statuses| && IsAgentAt(statuses, i)
         && (statuses[i].last == Some(code) || (statuses[i].last == None && statuses[i].state == Terminated(code)))
  }

  lemma AgentAt(statuses: seq<ContainerStatus>)
    ensures forall i :: 0 <= i < |statuses| && IsAgentAt(statuses, i) ==> AgentStatus(statuses) == Some(statuses[i])
    ensures AgentStatus(statuses).Some? ==> exists i :: 0 <= i < |statuses| && IsAgentAt(statuses, i)
  {
    var a := AgentStatus(statuses);
    if a.Some? {
      var h :| 0 <= h < |statuses| && statuses[h] == a.value && a.value.name == AGENT_CONTAINER
               && forall j :: 0 <= j < h ==> statuses[j].name != AGENT_CONTAINER;
      assert IsAgentAt(statuses, h);
      assert forall i :: IsAgentAt(statuses, i) ==> i == h;
    }
    forall i | 0 <= i < |statuses| && IsAgentAt(statuses, i) ensures a.Some? { assert statuses[i] in statuses; }
  }

  /** Up, and judged by which code, read off the statuses. */
  lemma StatusMeaning(statuses: seq<ContainerStatus>)
    ensures RunningAndReady(statuses) <==> AgentUp(statuses)
    ensures forall code :: ExitOnRecord(statuses) == Some(code) <==> ShowsExit(statuses, code)
  {
    hide AgentStatus;
    hide IsAgentAt;
    AgentAt(statuses);
  }

  /** The reason and the message that each code stands for. */
  lemma ReasonTable(code: int, collision: Collision)
    ensures var v := ClassifyExit(code, collision);
      && (code == 10 <==> v.reason == SubdomainBusy)
      && (code == 11 <==> v.reason == CNAMEBusy)
      && (code == 12 <==> v.reason == AccountTunnelLimitReached)
      && (code == 13 <==> v.reason == AuthFailed)
      && (code == 14 <==> v.reason == InvalidSubdomain)
      && (code == 15 <==> v.reason == NotAllowlisted)
      && (v.reason == AgentExited <==> code < 10 || code > 15)
      && (v.message == if 10 <= code <= 15 then ServerVerdict(v.reason, code == 10 && !v.terminal) else AgentExit(code))
  {
  }

  method FindAgentStatus(statuses: seq<ContainerStatus>) returns (r: Option<ContainerStatus>)
    ensures r == AgentStatus(statuses)
  {
    for i := 0 to |statuses|
      invariant AgentStatus(statuses) == AgentStatus(statuses[i..])
    {
      if statuses[i].name == AGENT_CONTAINER {
        return Some(statuses[i]);
      }
      assert statuses[i..][1..] == statuses[i + 1..];
    }
    return None;
  }

  method JudgePod(statuses: seq<ContainerStatus>, collision: Collision) returns (r: Option<(Verdict, int)>)
    ensures r == ClassifyPod(statuses, collision)
  {
    var cs := FindAgentStatus(statuses);
    if cs.None? {
      return None;
    }
    if cs.value.state.Running? && cs.value.ready {
      return None;
    }
    var term := cs.value.last;
    if term.None? {
      term := if cs.value.state.Terminated? then Some(cs.value.state.code) else None;
    }
    if term.None? {
      return None;
    }
    return Some((ClassifyExit(term.value, collision), term.value));
  }

  // ---- what kubelet may do to the agent container ----

  /** `Forget` is kubelet collecting the record of the previous container. */
  datatype KubeletEvent = Start | BecomeReady | BecomeUnready | Exit(code: int) | BackOff | Forget

  function KubeletStep(a: Option<ContainerStatus>, e: KubeletEvent): Option<ContainerStatus> {
    match e
    case Start =>
      if a.None? then Some(ContainerStatus(AGENT_CONTAINER, Running, None, false, 0))
      else if a.value.state.Running? then a
      else
        var last := if a.value.state.Terminated? then Some(a.value.state.code) else a.value.last;
        var bump := if last.Some? then 1 else 0;
        Some(a.value.(state := Running, last := last, ready := false, restartCount := a.value.restartCount + bump))
    case BecomeReady =>
      if a.Some? && a.value.state.Running? then Some(a.value.(ready := true)) else a
    case BecomeUnready =>
      if a.Some? then Some(a.value.(ready := false)) else a
    case Exit(code) =>
      if a.None? then Some(ContainerStatus(AGENT_CONTAINER, Terminated(code), None, false, 0))
      else if a.value.state.Terminated? then a
      else Some(a.value.(state := Terminated(code), ready := false))
    case BackOff =>
      if a.None? then Some(ContainerStatus(AGENT_CONTAINER, Waiting, None, false, 0))
      else if a.value.state.Terminated?
      then Some(a.value.(state := Waiting, last := Some(a.value.state.code), ready := false))
      else a
    case Forget =>
      if a.Some? then Some(a.value.(last := None)) else a
  }

  /** The exits of the container so far, oldest first. */
  function HistoryStep(a: Option<ContainerStatus>, history: seq<int>, e: KubeletEvent): seq<int> {
    if e.Exit? && (a.None? || !a.value.state.Terminated?) then history + [e.code] else history
  }

  /** What the status keeps of the history: the present exit exactly, the one before it or nothing. */
  predicate Faithful(a: Option<ContainerStatus>, history: seq<int>) {
    match a
    case None => history == []
    case Some(cs) =>
      && cs.name == AGENT_CONTAINER
      && (cs.ready ==> cs.state.Running?)
      && match cs.state {
           case Terminated(code) =>
             && history != [] && history[|history| - 1] == code
             && (cs.last.Some? ==> |history| >= 2 && cs.last.value == history[|history| - 2])
           case _ =>
             cs.last.Some? ==> history != [] && cs.last.value == history[|history| - 1]
         }
  }

  lemma KubeletKeepsFaithful(a: Option<ContainerStatus>, history: seq<int>, e: KubeletEvent)
    requires Faithful(a, history)
    ensures Faithful(KubeletStep(a, e), HistoryStep(a, history, e))
    ensures KubeletStep(a, e).None? ==> a.None?
    ensures KubeletStep(a, e).Some? ==> KubeletStep(a, e).value.name == AGENT_CONTAINER
  {
  }

  /** Put the agent's status where it was, or last. */
  function ReplaceAgent(statuses: seq<ContainerStatus>, a: ContainerStatus): seq<ContainerStatus> {
    if statuses == [] then [a]
    else if statuses[0].name == AGENT_CONTAINER then [a] + statuses[1..]
    else [statuses[0]] + ReplaceAgent(statuses[1..], a)
  }

  lemma {:induction false} ReplaceAgentStatus(statuses: seq<ContainerStatus>, a: ContainerStatus)
    requires a.name == AGENT_CONTAINER
    ensures AgentStatus(ReplaceAgent(statuses, a)) == Some(a)
  {
    if statuses != [] && statuses[0].name != AGENT_CONTAINER {
      ReplaceAgentStatus(statuses[1..], a);
      assert ReplaceAgent(statuses, a)[1..] == ReplaceAgent(statuses[1..], a);
    }
  }

  lemma VerdictFromHistory(statuses: seq<ContainerStatus>, history: seq<int>, collision: Collision)
    requires Faithful(AgentStatus(statuses), history)
    ensures RunningAndReady(statuses) ==> ClassifyPod(statuses, collision).None?
    ensures ClassifyPod(statuses, collision).Some? ==>
      var (v, code) := ClassifyPod(statuses, collision).value;
      var n := |history|;
      var a := AgentStatus(statuses).value;
      && AgentStatus(statuses).Some?
      && v == ClassifyExit(code, collision)
      && n >= 1
      && (if a.state.Terminated? && a.last.Some? then n >= 2 && code == history[n - 2]
          else code == history[n - 1])
  {
  }

  /** The lag is real: an agent that dropped its stream and then had its token rejected is
      judged by the drop, a retryable exit, although its latest exit is terminal. */
  lemma VerdictLagWitness(collision: Collision)
    ensures var events := [Start, Exit(EXIT_EVENT_STREAM_DROPPED), Start, Exit(EXIT_AUTH_FAILED)];
      var (a, history) := KubeletRun(None, [], events);
      && a.Some?
      && history == [EXIT_EVENT_STREAM_DROPPED, EXIT_AUTH_FAILED]
      && ClassifyPod([a.value], collision).Some?
      && !ClassifyPod([a.value], collision).value.0.terminal
      && ClassifyExit(history[1], collision).terminal
  {
    var a1 := KubeletStep(None, Start);
    var a2 := KubeletStep(a1, Exit(EXIT_EVENT_STREAM_DROPPED));
    var a3 := KubeletStep(a2, Start);
    var a4 := KubeletStep(a3, Exit(EXIT_AUTH_FAILED));
    var drop, reject := Exit(EXIT_EVENT_STREAM_DROPPED), Exit(EXIT_AUTH_FAILED);
    assert HistoryStep(a1, [], drop) == [22] && HistoryStep(a3, [22], reject) == [22, 13];
    assert KubeletRun(a4, [22, 13], []) == (a4, [22, 13]);
    assert KubeletRun(a3, [22], [reject]) == (a4, [22, 13]);
    assert [Start, reject][1..] == [reject];
    assert KubeletRun(a2, [22], [Start, reject]) == (a4, [22, 13]);
    assert [drop, Start, reject][1..] == [Start, reject];
    assert KubeletRun(a1, [], [drop, Start, reject]) == (a4, [22, 13]);
    assert [Start, drop, Start, reject][1..] == [drop, Start, reject];
  }

  function KubeletRun(a: Option<ContainerStatus>, history: seq<int>, events: seq<KubeletEvent>)
    : (Option<ContainerStatus>, seq<int>)
    decreases |events|
  {
    if events == [] then (a, history)
    else KubeletRun(KubeletStep(a, events[0]), HistoryStep(a, history, events[0]), events[1..])
  }
}
