/** From a changed object to the tunnels whose passes it can affect. */
module Watches {
  import opened Prelude
  import opened TunnelApi
  import opened AgentPod
  import opened ClusterState
  import opened PassSpec

  function ServiceRefKey(namespace: string, name: string): string {
    namespace + "/" + name
  }

  datatype Index = BackendService | TokenSecret

  function IndexValue(index: Index, spec: Spec): string {
    match index
    case BackendService => ServiceRefKey(spec.backend.namespace, spec.backend.serviceName)
    case TokenSecret => spec.secret.name
  }

  function Indexed(tunnels: map<string, Tunnel>, index: Index, value: string): set<string> {
    set n | n in tunnels && IndexValue(index, tunnels[n].spec) == value
  }

  function TunnelsForSecret(op: Operator, tunnels: map<string, Tunnel>, key: Key): set<string> {
    if key.namespace != op.namespace then {} else Indexed(tunnels, TokenSecret, key.name)
  }

  function TunnelsForService(tunnels: map<string, Tunnel>, key: Key): set<string> {
    Indexed(tunnels, BackendService, ServiceRefKey(key.namespace, key.name))
  }

  function TunnelsForSlice(tunnels: map<string, Tunnel>, namespace: string, slice: Option<EndpointSlice>): set<string> {
    if slice.None? then {}
    else
      var service := Lookup(slice.value.labels, SERVICE_NAME_LABEL);
      if service == "" then {} else Indexed(tunnels, BackendService, ServiceRefKey(namespace, service))
  }

  /** The owner reference of a pod names its tunnel. */
  function TunnelsForPod(pod: Option<Pod>): set<string> {
    if pod.None? then {} else {pod.value.template.owner}
  }

  // ---- the lookups as the manager runs them ----

  /** The tunnels whose index entry has the given value, each once. None when the list call fails. */
  method ListByIndex(tunnels: map<string, Tunnel>, index: Index, value: string, fails: bool)
    returns (items: Option<seq<string>>)
    ensures items.None? <==> fails
    ensures items.Some? ==> (set n | n in items.value) == Indexed(tunnels, index, value)
    ensures items.Some? ==> forall i, j :: 0 <= i < j < |items.value| ==> items.value[i] != items.value[j]
  {
    if fails { return None; }
    var found: seq<string> := [];
    var todo := tunnels.Keys;
    while todo != {}
      invariant todo <= tunnels.Keys
      invariant forall n :: n in found <==> n in tunnels && n !in todo && IndexValue(index, tunnels[n].spec) == value
      invariant forall i, j :: 0 <= i < j < |found| ==> found[i] != found[j]
      decreases todo
    {
      var n :| n in todo;
      if IndexValue(index, tunnels[n].spec) == value {
        found := found + [n];
      }
      todo := todo - {n};
    }
    return Some(found);
  }

  /** One request per indexed tunnel; a failing list drops the event. */
  method RequestsByIndex(tunnels: map<string, Tunnel>, index: Index, value: string, fails: bool)
    returns (requests: seq<string>)
    ensures fails ==> requests == []
    ensures !fails ==> (set n | n in requests) == Indexed(tunnels, index, value)
    ensures forall i, j :: 0 <= i < j < |requests| ==> requests[i] != requests[j]
  {
    var listed := ListByIndex(tunnels, index, value, fails);
    if listed.None? { return []; }
    requests := [];
    for i := 0 to |listed.value|
      invariant requests == listed.value[..i]
    {
      requests := requests + [listed.value[i]];
    }
    assert listed.value[..|listed.value|] == listed.value;
  }

  method MapSecret(op: Operator, tunnels: map<string, Tunnel>, key: Key, fails: bool) returns (requests: seq<string>)
    ensures !fails ==> (set n | n in requests) == TunnelsForSecret(op, tunnels, key)
    ensures fails ==> requests == []
  {
    if key.namespace != op.namespace { return []; }
    requests := RequestsByIndex(tunnels, TokenSecret, key.name, fails);
  }

  method MapService(tunnels: map<string, Tunnel>, key: Key, fails: bool) returns (requests: seq<string>)
    ensures !fails ==> (set n | n in requests) == TunnelsForService(tunnels, key)
    ensures fails ==> requests == []
  {
    requests := RequestsByIndex(tunnels, BackendService, ServiceRefKey(key.namespace, key.name), fails);
  }

  method MapSlice(tunnels: map<string, Tunnel>, namespace: string, slice: EndpointSlice, fails: bool)
    returns (requests: seq<string>)
    ensures !fails ==> (set n | n in requests) == TunnelsForSlice(tunnels, namespace, Some(slice))
    ensures fails ==> requests == []
  {
    var service := Lookup(slice.labels, SERVICE_NAME_LABEL);
    if service == "" { return []; }
    requests := RequestsByIndex(tunnels, BackendService, ServiceRefKey(namespace, service), fails);
  }

  // ---- the lookups are exact ----

  predicate SlashFree(s: string) {
    '/' !in s
  }

  /** A reference key made from slash-free names is made from no other pair, slash-free or not. */
  lemma ServiceRefKeyInjective(namespace: string, name: string, a: string, b: string)
    requires SlashFree(namespace) && SlashFree(name)
    requires ServiceRefKey(a, b) == ServiceRefKey(namespace, name)
    ensures a == namespace && b == name
  {
    var k := ServiceRefKey(namespace, name);
    assert k[|a|] == '/' by { assert ServiceRefKey(a, b)[|a|] == '/'; }
    assert forall i :: 0 <= i < |k| && i != |namespace| ==> k[i] != '/' by {
      forall i | 0 <= i < |k| && i != |namespace| ensures k[i] != '/' {
        assert if i < |namespace| then k[i] == namespace[i] else k[i] == name[i - |namespace| - 1];
      }
    }
    assert |a| == |namespace|;
    assert k[..|a|] == a && k[..|namespace|] == namespace;
    assert ServiceRefKey(a, b)[|a| + 1..] == b && k[|namespace| + 1..] == name;
  }

  /** For an object with real, slash-free names the index returns exactly the tunnels that a scan
      of all backend references would. */
  lemma ServiceLookupIsExact(tunnels: map<string, Tunnel>, key: Key)
    requires SlashFree(key.namespace) && SlashFree(key.name)
    ensures TunnelsForService(tunnels, key) == set n | n in tunnels && ServiceKey(tunnels[n].spec.backend) == key
  {
    forall n | n in TunnelsForService(tunnels, key) ensures ServiceKey(tunnels[n].spec.backend) == key {
      var ref := tunnels[n].spec.backend;
      ServiceRefKeyInjective(key.namespace, key.name, ref.namespace, ref.serviceName);
    }
  }

  /** A Secret's event enqueues exactly the tunnels that name it, in the operator's namespace only. */
  lemma SecretLookupIsExact(op: Operator, tunnels: map<string, Tunnel>, key: Key)
    ensures TunnelsForSecret(op, tunnels, key)
         == set n | n in tunnels && key == Key(op.namespace, tunnels[n].spec.secret.name)
  {
  }

  /** A slice's event enqueues exactly the tunnels of the Service that its label names. */
  lemma SliceLookupIsExact(tunnels: map<string, Tunnel>, namespace: string, slice: EndpointSlice)
    requires SlashFree(namespace)
    requires "kubernetes.io/service-name" in slice.labels ==> SlashFree(slice.labels["kubernetes.io/service-name"])
    ensures TunnelsForSlice(tunnels, namespace, Some(slice))
         == set n | n in tunnels && "kubernetes.io/service-name" in slice.labels
                    && slice.labels["kubernetes.io/service-name"] != ""
                    && tunnels[n].spec.backend.namespace == namespace
                    && tunnels[n].spec.backend.serviceName == slice.labels["kubernetes.io/service-name"]
  {
    if "kubernetes.io/service-name" in slice.labels && slice.labels["kubernetes.io/service-name"] != "" {
      ServiceLookupIsExact(tunnels, Key(namespace, slice.labels["kubernetes.io/service-name"]));
    }
  }

  /** With a slash in a name the lookup may return a tunnel of another Service. */
  lemma SlashBreaksExactness(t: Tunnel)
    requires ServiceKey(t.spec.backend) == Key("a", "b/c")
    ensures "x" in TunnelsForService(map["x" := t], Key("a/b", "c"))
    ensures ServiceKey(t.spec.backend) != Key("a/b", "c")
  {
    assert ServiceRefKey("a", "b/c") == "a/b/c" == ServiceRefKey("a/b", "c");
  }

  // ---- nothing that matters is missed ----

  /** A pass depends on the shared inputs only through the two gates. */
  lemma PassReadsGates(op: Operator, name: string, v: View, w: View, o: Oracle)
    requires v.tunnel == w.tunnel && v.pod == w.pod && v.cached == w.cached
    requires v.tunnel.Some? ==>
      var spec := v.tunnel.value.spec;
      && CheckToken(op, v.secrets, spec.secret) == CheckToken(op, w.secrets, spec.secret)
      && CheckBackend(v.services, v.slices, spec.backend) == CheckBackend(w.services, w.slices, spec.backend)
      && BackendReadFails(v.services, spec.backend, o) == BackendReadFails(w.services, spec.backend, o)
    ensures Pass(op, name, v, o) == Pass(op, name, w, o)
  {
    hide CheckToken;
    hide CheckBackend;
    hide BackendReadFails;
    hide WithPod;
    hide SetCondition;
    hide Decide;
    hide Carry;
    if Acts(v, o) {
      var t := v.tunnel.value;
      assert Observe(op, v, t, o) == Observe(op, w, t, o);
      CarryIgnoresCluster(op, name, v, w, t, o);
    }
  }

  lemma CarryIgnoresCluster(op: Operator, name: string, v: View, w: View, t: Tunnel, o: Oracle)
    requires v.pod == w.pod && v.cached == w.cached && Observe(op, v, t, o) == Observe(op, w, t, o)
    ensures Body(op, name, v, t, o) == Body(op, name, w, t, o)
  {
    hide Observe;
    hide Decide;
    hide Carry;
  }

  /** If changing one Secret changes what a pass for a tunnel does, the Secret's event enqueues it. */
  lemma SecretWatchIsComplete(op: Operator, w: World, cached: string, name: string, o: Oracle, key: Key,
                              secret: Option<SecretData>)
    requires var w2 := w.(secrets := SetKey(w.secrets, key, secret));
      Pass(op, name, Look(op, w, cached, name), o) != Pass(op, name, Look(op, w2, cached, name), o)
    ensures name in TunnelsForSecret(op, w.tunnels, key)
  {
    hide Pass;
    hide Blank;
    hide CheckBackend;
    hide BackendReadFails;
    var w2 := w.(secrets := SetKey(w.secrets, key, secret));
    if name !in TunnelsForSecret(op, w.tunnels, key) {
      if name in w.tunnels {
        var ref := w.tunnels[name].spec.secret;
        assert Key(op.namespace, ref.name) != key;
        assert CheckToken(op, w.secrets, ref) == CheckToken(op, w2.secrets, ref);
      }
      PassReadsGates(op, name, Look(op, w, cached, name), Look(op, w2, cached, name), o);
    }
  }

  /** If changing one Service changes what a pass for a tunnel does, the Service's event enqueues it. */
  lemma ServiceWatchIsComplete(op: Operator, w: World, cached: string, name: string, o: Oracle, key: Key,
                               service: Option<seq<ServicePort>>)
    requires var w2 := w.(services := SetKey(w.services, key, service));
      Pass(op, name, Look(op, w, cached, name), o) != Pass(op, name, Look(op, w2, cached, name), o)
    ensures name in TunnelsForService(w.tunnels, key)
  {
    hide Pass;
    hide CheckToken;
    hide HasReadyEndpoint;
    hide ResolvePort;
    var w2 := w.(services := SetKey(w.services, key, service));
    if name !in TunnelsForService(w.tunnels, key) {
      if name in w.tunnels {
        assert ServiceKey(w.tunnels[name].spec.backend) != key;
      }
      PassReadsGates(op, name, Look(op, w, cached, name), Look(op, w2, cached, name), o);
    }
  }

  /** If changing one EndpointSlice changes what a pass for a tunnel does, the old or the new form
      of the slice enqueues it. */
  lemma SliceWatchIsComplete(op: Operator, w: World, cached: string, name: string, o: Oracle, key: Key,
                             slice: Option<EndpointSlice>)
    requires name in w.tunnels ==> w.tunnels[name].spec.backend.serviceName != ""
    requires var w2 := w.(slices := SetKey(w.slices, key, slice));
      Pass(op, name, Look(op, w, cached, name), o) != Pass(op, name, Look(op, w2, cached, name), o)
    ensures name in TunnelsForSlice(w.tunnels, key.namespace, GetKey(w.slices, key))
                    + TunnelsForSlice(w.tunnels, key.namespace, slice)
  {
    hide Pass;
    hide CheckToken;
    hide ResolvePort;
    hide BackendReadFails;
    var w2 := w.(slices := SetKey(w.slices, key, slice));
    var before, after := TunnelsForSlice(w.tunnels, key.namespace, GetKey(w.slices, key)),
      TunnelsForSlice(w.tunnels, key.namespace, slice);
    if name !in before + after {
      if name in w.tunnels {
        var service := ServiceKey(w.tunnels[name].spec.backend);
        assert key in w.slices && key.namespace == service.namespace ==> !SliceServes(w.slices[key], service.name);
        assert key in w2.slices && key.namespace == service.namespace ==> !SliceServes(w2.slices[key], service.name);
        SameEndpoints(w.slices, w2.slices, key, service);
      }
      PassReadsGates(op, name, Look(op, w, cached, name), Look(op, w2, cached, name), o);
    }
  }

  lemma SameEndpoints(slices: map<Key, EndpointSlice>, other: map<Key, EndpointSlice>, key: Key, service: Key)
    requires forall k :: k != key ==> GetKey(slices, k) == GetKey(other, k)
    requires key in slices && key.namespace == service.namespace ==> !SliceServes(slices[key], service.name)
    requires key in other && key.namespace == service.namespace ==> !SliceServes(other[key], service.name)
    ensures HasReadyEndpoint(slices, service) <==> HasReadyEndpoint(other, service)
  {
    assert forall k :: k != key ==> (k in slices <==> k in other) && (k in slices ==> slices[k] == other[k]) by {
      forall k | k != key ensures (k in slices <==> k in other) && (k in slices ==> slices[k] == other[k]) {
        assert GetKey(slices, k) == GetKey(other, k);
      }
    }
  }

  /** If changing one pod changes what a pass for a tunnel does, the owner of the old or the new pod
      is that tunnel, provided pods sit where their owner's name says, as they do in every reachable
      state. */
  lemma PodWatchIsComplete(op: Operator, w: World, cached: string, name: string, o: Oracle, key: Key, pod: Option<Pod>)
    requires key in w.pods ==> key == PodKey(op, w.pods[key].template.owner)
    requires pod.Some? ==> key == PodKey(op, pod.value.template.owner)
    requires var w2 := w.(pods := SetKey(w.pods, key, pod));
      Pass(op, name, Look(op, w, cached, name), o) != Pass(op, name, Look(op, w2, cached, name), o)
    ensures name in TunnelsForPod(GetKey(w.pods, key)) + TunnelsForPod(pod)
  {
    hide Pass;
    SetGetKey(w.pods, key, pod, PodKey(op, name));
    assert key == PodKey(op, name);
    assert key in w.pods || pod.Some?;
    if key in w.pods {
      PodNameInjective(name, w.pods[key].template.owner);
    } else {
      PodNameInjective(name, pod.value.template.owner);
    }
  }
}
