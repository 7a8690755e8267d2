/** The JprqTunnel resource: spec, status, and the condition list. */
module TunnelApi {
  import opened Prelude

  datatype Phase = Unset | Pending | Active | Degraded | Failed

  datatype ConditionType = Ready | BackendReady | TokenReady

  datatype Reason =
    | SecretNotFound | SecretKeyNotFound | EmptyToken | TokenFound
    | ServiceNotFound | PortNotResolvable | NoReadyEndpoints | EndpointsReady
    | TunnelActive | PodNotReady | PodPending
    | SubdomainBusy | CNAMEBusy | AccountTunnelLimitReached | AuthFailed
    | NotAllowlisted | InvalidSubdomain | AgentExited

  /** A human-readable text, kept as its format and arguments. */
  datatype Message =
    | NoMessage
    | TokenSecretMissing(secret: string, namespace: string)
    | TokenKeyMissing(secret: string, key: string)
    | TokenBlank(secret: string, key: string)
    | UsingToken(secret: string, key: string)
    | ServiceMissing(namespace: string, service: string)
    | PortNumberUndeclared(port: int, namespace: string, service: string)
    | PortNameUndeclared(portName: string, namespace: string, service: string)
    | EndpointsMissing(namespace: string, service: string)
    | ForwardingTo(address: string)
    | PreviousPodTerminating
    | PodCreatedWaiting
    | ConfigurationChanged
    | TunnelOnline
    | AgentPodNotReady
    | ServerVerdict(reason: Reason, retrying: bool)
    | AgentExit(code: int)

  datatype Collision = Unspecified | FailOnBusy | RetryOnBusy | AddSuffix

  datatype PortRef = ByNumber(number: int) | ByName(name: string)

  datatype BackendRef = BackendRef(namespace: string, serviceName: string, port: PortRef)

  datatype SecretRef = SecretRef(name: string, key: string)

  datatype Spec = Spec(subdomain: string, collision: Collision, backend: BackendRef, secret: SecretRef)

  /** `since` is the time at which the condition last changed between true and false. */
  datatype Condition = Condition(kind: ConditionType, holds: bool, reason: Reason, message: Message, since: nat)

  datatype Status = Status(
    phase: Phase,
    url: string,
    assignedSubdomain: string,
    backendAddress: string,
    podName: string,
    lastExitCode: Option<int>,
    lastFailureMessage: Message,
    restartCount: int,
    observedGeneration: nat,
    conditions: seq<Condition>)

  const EMPTY_STATUS := Status(Unset, "", "", "", "", None, NoMessage, 0, 0, [])

  datatype Tunnel = Tunnel(generation: nat, spec: Spec, status: Status, deleting: bool)

  /** apimeta.SetStatusCondition: replace the first condition of the same type in place,
      or append. The timestamp moves only when the truth value does. */
  function SetCondition(cs: seq<Condition>, c: Condition): seq<Condition> {
    if cs == [] then [c]
    else if cs[0].kind == c.kind then
      [if cs[0].holds == c.holds then c.(since := cs[0].since) else c] + cs[1..]
    else [cs[0]] + SetCondition(cs[1..], c)
  }

  /** apimeta.FindStatusCondition. */
  function FindCondition(cs: seq<Condition>, kind: ConditionType): (found: Option<Condition>)
    ensures found.None? <==> forall c :: c in cs ==> c.kind != kind
    ensures found.Some? ==> found.value in cs && found.value.kind == kind
  {
    if cs == [] then None
    else if cs[0].kind == kind then Some(cs[0])
    else FindCondition(cs[1..], kind)
  }

  predicate ConditionIs(cs: seq<Condition>, kind: ConditionType, holds: bool) {
    FindCondition(cs, kind).Some? && FindCondition(cs, kind).value.holds == holds
  }

  /** The condition reads so, whenever it was written. */
  predicate Shows(cs: seq<Condition>, kind: ConditionType, holds: bool, reason: Reason, message: Message) {
    FindCondition(cs, kind).Some?
    && var c := FindCondition(cs, kind).value;
      c.holds == holds && c.reason == reason && c.message == message
  }

  /** No condition type occurs twice. */
  predicate UniqueKinds(cs: seq<Condition>) {
    cs == [] || (FindCondition(cs[1..], cs[0].kind).None? && UniqueKinds(cs[1..]))
  }

  lemma {:induction false} UniqueKindsMeaning(cs: seq<Condition>)
    ensures UniqueKinds(cs) <==> forall i, j :: 0 <= i < j < |cs| ==> cs[i].kind != cs[j].kind
  {
    if cs != [] {
      var tail := cs[1..];
      UniqueKindsMeaning(tail);
      assert forall i :: 0 <= i < |tail| ==> tail[i] == cs[i + 1];
      assert forall i :: 0 < i < |cs| ==> cs[i] == tail[i - 1];
      assert FindCondition(tail, cs[0].kind).None? <==> forall j :: 0 < j < |cs| ==> cs[j].kind != cs[0].kind;
      assert (forall i, j :: 0 <= i < j < |tail| ==> tail[i].kind != tail[j].kind)
        <==> (forall i, j :: 0 < i < j < |cs| ==> cs[i].kind != cs[j].kind);
    }
  }

  predicate SameButTime(a: Condition, b: Condition) {
    a == b.(since := a.since)
  }

  /** What an upsert stores under its own type, and that it leaves the other types alone. */
  lemma {:induction false} SetThenFind(cs: seq<Condition>, c: Condition, kind: ConditionType)
    ensures var r := SetCondition(cs, c);
      if kind == c.kind then FindCondition(r, kind).Some? && SameButTime(FindCondition(r, kind).value, c)
      else FindCondition(r, kind) == FindCondition(cs, kind)
  {
    if cs != [] && cs[0].kind != c.kind {
      SetThenFind(cs[1..], c, kind);
      assert SetCondition(cs, c)[1..] == SetCondition(cs[1..], c);
    } else if cs != [] {
      assert SetCondition(cs, c)[1..] == cs[1..];
    }
  }

  /** The time of a condition is the time of its last change between true and false: writing the same
      truth value keeps it, writing the other or the first one sets it. */
  lemma {:induction false} SetKeepsTransition(cs: seq<Condition>, c: Condition)
    ensures var before, after := FindCondition(cs, c.kind), FindCondition(SetCondition(cs, c), c.kind);
      && after.Some?
      && after.value.since == (if before.Some? && before.value.holds == c.holds then before.value.since else c.since)
  {
    if cs != [] && cs[0].kind != c.kind {
      SetKeepsTransition(cs[1..], c);
      assert SetCondition(cs, c)[1..] == SetCondition(cs[1..], c);
    }
  }

  /** An upsert keeps the list keyed by type. */
  lemma {:induction false} SetKeepsUnique(cs: seq<Condition>, c: Condition)
    requires UniqueKinds(cs)
    ensures UniqueKinds(SetCondition(cs, c))
  {
    if cs != [] && cs[0].kind != c.kind {
      SetKeepsUnique(cs[1..], c);
      SetThenFind(cs[1..], c, cs[0].kind);
      assert SetCondition(cs, c)[1..] == SetCondition(cs[1..], c);
    } else if cs != [] {
      assert SetCondition(cs, c)[1..] == cs[1..];
    }
  }

  lemma SetConditionEffect(cs: seq<Condition>, c: Condition)
    ensures var r := SetCondition(cs, c);
      && FindCondition(r, c.kind).Some?
      && SameButTime(FindCondition(r, c.kind).value, c)
      && (forall k :: k != c.kind ==> FindCondition(r, k) == FindCondition(cs, k))
      && (UniqueKinds(cs) ==> UniqueKinds(r))
  {
    SetThenFind(cs, c, c.kind);
    forall k | k != c.kind ensures FindCondition(SetCondition(cs, c), k) == FindCondition(cs, k) {
      SetThenFind(cs, c, k);
    }
    if UniqueKinds(cs) { SetKeepsUnique(cs, c); }
  }

  /** Writing a condition that already reads the same changes nothing, whatever the clock says. */
  lemma {:induction false} SetConditionIdempotent(cs: seq<Condition>, c: Condition)
    requires FindCondition(cs, c.kind).Some? && SameButTime(FindCondition(cs, c.kind).value, c)
    ensures SetCondition(cs, c) == cs
  {
    if cs[0].kind == c.kind {
      assert cs == [cs[0]] + cs[1..];
    } else {
      SetConditionIdempotent(cs[1..], c);
      assert cs == [cs[0]] + cs[1..];
    }
  }
}
